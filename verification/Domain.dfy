/** The persistent entities and the database they live in. */
module Domain {
  import opened Wrappers

  type UserId = nat
  type FamilyId = nat
  type TokenHash = nat
  type ListingId = nat
  type Email = string

  /** An email folded for comparison: the case-insensitive column compares and indexes these. */
  type EmailKey = string

  /** Microseconds since the epoch. */
  type Time = nat

  const SECOND: nat := 1_000_000

  // ---- users ----

  datatype Role = RegularUser | Admin

  /** An ideal password hash: it verifies exactly the password it was made from. */
  datatype PasswordHash = Argon2(plain: string)

  predicate VerifyPassword(plain: string, hash: PasswordHash) {
    hash == Argon2(plain)
  }

  datatype User = User(
    password: PasswordHash,
    displayName: string,
    role: Role,
    isActive: bool,
    mustChangePassword: bool)

  // ---- refresh tokens ----

  datatype RefreshToken = RefreshToken(userId: UserId, familyId: FamilyId, revoked: bool, expiresAt: Time)

  type TokenTable = map<TokenHash, RefreshToken>

  // ---- listings ----

  datatype Category = Fiction | NonFiction | AcademicTextbook | Children | ComicsGraphicNovels | Other

  datatype Condition = New | LikeNew | Good | Fair | Poor

  datatype Status = Available | Sold | Deleted

  datatype Content = Content(
    title: string,
    author: string,
    description: string,
    category: Category,
    condition: Condition,
    price: nat)  // in hundredths

  datatype Listing = Listing(
    ownerId: UserId,
    content: Content,
    status: Status,
    soldAt: Option<Time>,
    createdAt: Time,
    updatedAt: Time)

  // ---- images ----

  newtype byte = x: int | 0 <= x < 256

  type Bytes = seq<byte>

  datatype ContentType = Jpeg | Png | WebP

  /** `listings/{listing}/{uuid}.{extension}`; the extension is named by its content type. */
  datatype ObjectKey = ObjectKey(listing: ListingId, uuid: nat, extension: ContentType)

  type Objects = map<ObjectKey, Bytes>

  datatype Image = Image(listing: ListingId, key: ObjectKey, position: nat)

  /** The images of one listing, in insertion order. */
  function ImagesOf(images: seq<Image>, l: ListingId): seq<Image> {
    if images == [] then []
    else
      var rest := ImagesOf(images[..|images| - 1], l);
      if images[|images| - 1].listing == l then rest + [images[|images| - 1]] else rest
  }

  // ---- audit log ----

  datatype Action = RemoveListing | SuspendUser | ReinstateUser | ResetPassword

  datatype AuditRow = AuditRow(admin: UserId, action: Action, target: nat, reason: Option<string>)

  // ---- the database ----

  /** One committed (or pending) state of every table. `emails` is the unique index on `users.email`. */
  datatype Db = Db(
    users: map<UserId, User>,
    emails: map<EmailKey, UserId>,
    tokens: TokenTable,
    listings: map<ListingId, Listing>,
    images: seq<Image>,
    audit: seq<AuditRow>)
}
