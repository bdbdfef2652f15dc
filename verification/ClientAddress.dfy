/** Which address a request is rate-limited under, behind a fixed number of trusted proxy hops. */
module ClientAddress {
  import opened Wrappers
  import opened RateLimiter

  /** Whitespace as `str.strip()` sees it in a header, which is decoded as Latin-1. */
  predicate IsSpace(c: char) {
    c == ' ' || '\t' <= c <= '\r' || '\U{1c}' <= c <= '\U{1f}' || c == '\U{85}' || c == '\U{a0}'
  }

  function StripLeft(s: string): string {
    if s != "" && IsSpace(s[0]) then StripLeft(s[1..]) else s
  }

  function StripRight(s: string): string {
    if s != "" && IsSpace(s[|s| - 1]) then StripRight(s[..|s| - 1]) else s
  }

  function Strip(s: string): string {
    StripRight(StripLeft(s))
  }

  /** `s.split(",")`: never empty. */
  function Split(s: string): (parts: seq<string>)
    ensures parts != []
  {
    if s == "" then [""]
    else if s[0] == ',' then [""] + Split(s[1..])
    else
      var rest := Split(s[1..]);
      [[s[0]] + rest[0]] + rest[1..]
  }

  /** The entries of a header that are not blank, stripped. */
  function NonBlank(parts: seq<string>): seq<string> {
    if parts == [] then []
    else (if Strip(parts[0]) != "" then [Strip(parts[0])] else []) + NonBlank(parts[1..])
  }

  function Hops(header: string): seq<string> {
    NonBlank(Split(header))
  }

  /** `peer` is the host of the connection itself, if there is one. */
  function Extract(header: Option<string>, peer: Option<string>, hopCount: nat): string {
    if hopCount > 0 && header.Some? && header.value != "" && |Hops(header.value)| >= hopCount then
      Hops(header.value)[|Hops(header.value)| - hopCount]
    else if peer.Some? then peer.value
    else "unknown"
  }

  // ---- trusted hops ----

  /** What a proxy observes of its peer: not blank, no comma, no surrounding whitespace. */
  predicate IsAddress(a: string) {
    a != "" && Strip(a) == a && ',' !in a
  }

  /** A hop passes the header on with the address it saw appended. */
  function Append(header: Option<string>, address: string): string {
    if header.Some? && header.value != "" then header.value + ", " + address else address
  }

  /** The header after a chain of hops, the first of them next to the client. */
  function AppendAll(header: Option<string>, addresses: seq<string>): Option<string> {
    if addresses == [] then header
    else Some(Append(AppendAll(header, addresses[..|addresses| - 1]), addresses[|addresses| - 1]))
  }

  function HopsOf(header: Option<string>): seq<string> {
    if header.Some? then Hops(header.value) else []
  }

  lemma {:induction false} SplitAtComma(a: string, b: string)
    ensures Split(a + "," + b) == Split(a) + Split(b)
  {
    if a == "" {
      assert a + "," + b == "," + b;
      assert ("," + b)[1..] == b;
    } else {
      assert (a + "," + b)[1..] == a[1..] + "," + b;
      SplitAtComma(a[1..], b);
    }
  }

  lemma {:induction false} SplitNoComma(a: string)
    requires ',' !in a
    ensures Split(a) == [a]
  {
    if a != "" {
      SplitNoComma(a[1..]);
      assert [a[0]] + a[1..] == a;
    }
  }

  lemma {:induction false} NonBlankConcat(p: seq<string>, q: seq<string>)
    ensures NonBlank(p + q) == NonBlank(p) + NonBlank(q)
  {
    if p == [] {
      assert p + q == q;
    } else {
      assert (p + q)[1..] == p[1..] + q;
      NonBlankConcat(p[1..], q);
    }
  }

  lemma HopsOfAddress(pad: string, a: string)
    requires IsAddress(a) && (pad == "" || pad == " ")
    ensures Hops(pad + a) == [a]
  {
    SplitNoComma(pad + a);
    if pad == "" {
      assert pad + a == a;
    } else {
      assert (pad + a)[1..] == a;
    }
    assert Strip(pad + a) == a;
    assert NonBlank([pad + a]) == [a] + NonBlank([]);
  }

  lemma HopsAppend(header: Option<string>, a: string)
    requires IsAddress(a)
    ensures Hops(Append(header, a)) == HopsOf(header) + [a]
  {
    if header.Some? && header.value != "" {
      var h := header.value;
      assert Append(header, a) == h + "," + (" " + a);
      SplitAtComma(h, " " + a);
      NonBlankConcat(Split(h), Split(" " + a));
      HopsOfAddress(" ", a);
    } else {
      HopsOfAddress("", a);
      assert "" + a == a;
      BlankHasNoHops();
    }
  }

  lemma {:induction false} HopsAppendAll(header: Option<string>, addresses: seq<string>)
    requires forall i :: 0 <= i < |addresses| ==> IsAddress(addresses[i])
    ensures HopsOf(AppendAll(header, addresses)) == HopsOf(header) + addresses
  {
    hide Hops, Append;
    if addresses != [] {
      var init := addresses[..|addresses| - 1];
      HopsAppendAll(header, init);
      HopsAppend(AppendAll(header, init), addresses[|addresses| - 1]);
      assert addresses == init + [addresses[|addresses| - 1]];
    }
  }

  lemma BlankHasNoHops()
    ensures Hops("") == []
  {
  }

  /** Prefix independence: whatever header the client sends, or none, once as many trusted hops as
      configured have each appended what they saw, the first hop's observation is extracted. */
  lemma FirstTrustedHopWins(header: Option<string>, addresses: seq<string>, peer: Option<string>)
    requires addresses != [] && forall i :: 0 <= i < |addresses| ==> IsAddress(addresses[i])
    ensures Extract(AppendAll(header, addresses), peer, |addresses|) == addresses[0]
  {
    hide AppendAll;
    HopsAppendAll(header, addresses);
    BlankHasNoHops();
  }

  /** A chain of hops alone, exactly: with enough of them the one as many places from the end as there are
      trusted hops, and otherwise the peer. */
  lemma ChainIsReadFromTheEnd(addresses: seq<string>, peer: Option<string>, hopCount: nat)
    requires forall i :: 0 <= i < |addresses| ==> IsAddress(addresses[i])
    ensures
      var extracted := Extract(AppendAll(None, addresses), peer, hopCount);
      if 0 < hopCount <= |addresses| then extracted == addresses[|addresses| - hopCount]
      else if peer.Some? then extracted == peer.value
      else extracted == "unknown"
  {
    hide Hops, AppendAll, Extract;
    HopsAppendAll(None, addresses);
    assert [] + addresses == addresses;
    ExtractByHops(AppendAll(None, addresses), peer, hopCount);
  }

  lemma ExtractByHops(header: Option<string>, peer: Option<string>, hopCount: nat)
    ensures
      var hops := HopsOf(header);
      Extract(header, peer, hopCount) ==
        if 0 < hopCount <= |hops| then hops[|hops| - hopCount] else if peer.Some? then peer.value else "unknown"
  {
    BlankHasNoHops();
    hide Hops;
  }

  /** Without trusted hops, or with fewer entries than trusted hops, it is the peer that counts, whatever
      the header holds; only a request without a peer is "unknown". */
  lemma PeerIsTheFallback(header: Option<string>, peer: Option<string>, hopCount: nat)
    requires hopCount == 0 || |HopsOf(header)| < hopCount
    ensures peer.Some? ==> Extract(header, peer, hopCount) == peer.value
    ensures peer.None? ==> Extract(header, peer, hopCount) == "unknown"
  {
  }

  // ---- the limiter behind the proxies ----

  /** A request to a rate-limited endpoint: what the client put in the header, what each trusted hop
      saw (the first of them the client itself), the other end of the connection, and when the limiter is
      reached. */
  datatype Request = Request(path: string, header: Option<string>, hops: seq<string>, peer: Option<string>, now: real)

  /** Each of the configured hops appended an address; if there are none, the connection has a peer. */
  predicate BehindHops(r: Request, hopCount: nat) {
    && |r.hops| == hopCount && (forall j :: 0 <= j < hopCount ==> IsAddress(r.hops[j]))
    && (hopCount == 0 ==> r.peer.Some?)
  }

  /** Who is really asking: what the first trusted hop saw, or, without trusted hops, the peer. */
  function Client(r: Request, hopCount: nat): string
    requires BehindHops(r, hopCount)
  {
    if hopCount > 0 then r.hops[0] else r.peer.value
  }

  function CallFor(r: Request, hopCount: nat): Call {
    Call(WindowKey(r.path, Extract(AppendAll(r.header, r.hops), r.peer, hopCount)), r.now)
  }

  /** Requests share a key if and only if they come from one client to one endpoint. */
  lemma KeyIsTheClient(a: Request, b: Request, hopCount: nat)
    requires BehindHops(a, hopCount) && BehindHops(b, hopCount)
    ensures CallFor(a, hopCount).key == WindowKey(a.path, Client(a, hopCount))
    ensures CallFor(a, hopCount).key == CallFor(b, hopCount).key <==>
      a.path == b.path && Client(a, hopCount) == Client(b, hopCount)
  {
    hide Extract, AppendAll;
    ClientIsExtracted(a, hopCount);
    ClientIsExtracted(b, hopCount);
  }

  lemma ClientIsExtracted(r: Request, hopCount: nat)
    requires BehindHops(r, hopCount)
    ensures Extract(AppendAll(r.header, r.hops), r.peer, hopCount) == Client(r, hopCount)
  {
    if hopCount > 0 {
      FirstTrustedHopWins(r.header, r.hops, r.peer);
    } else {
      PeerIsTheFallback(AppendAll(r.header, r.hops), r.peer, hopCount);
    }
  }

  function CallsFor(rs: seq<Request>, hopCount: nat): (calls: seq<Call>)
    ensures |calls| == |rs| && forall i :: 0 <= i < |rs| ==> calls[i] == CallFor(rs[i], hopCount)
  {
    seq(|rs|, i requires 0 <= i < |rs| => CallFor(rs[i], hopCount))
  }

  /** Requests of the client at `address` to `path` that are let through in `[lo, hi)`. */
  function LetThrough(
    rs: seq<Request>, hopCount: nat, path: string, address: string, limit: int, lo: real, hi: real): nat
    requires forall i :: 0 <= i < |rs| ==> BehindHops(rs[i], hopCount)
  {
    if rs == [] then 0
    else
      var i := |rs| - 1;
      LetThrough(rs[..i], hopCount, path, address, limit, lo, hi) +
      if rs[i].path == path && Client(rs[i], hopCount) == address && lo <= rs[i].now < hi
        && Accepts(CallsFor(rs, hopCount), i, limit) then 1 else 0
  }

  lemma {:induction false} LetThroughIsBounded(
    rs: seq<Request>, hopCount: nat, path: string, address: string, limit: int, lo: real, hi: real)
    requires forall i :: 0 <= i < |rs| ==> BehindHops(rs[i], hopCount)
    ensures LetThrough(rs, hopCount, path, address, limit, lo, hi) ==
      AcceptedIn(CallsFor(rs, hopCount), WindowKey(path, address), limit, lo, hi)
  {
    hide Accepts, Extract, AppendAll;
    if rs != [] {
      var i := |rs| - 1;
      LetThroughIsBounded(rs[..i], hopCount, path, address, limit, lo, hi);
      ClientIsExtracted(rs[i], hopCount);
      assert CallsFor(rs, hopCount)[..i] == CallsFor(rs[..i], hopCount);
    }
  }

  /** The bound a real client cannot get around, behind any number of trusted hops or none: whatever it
      writes into the header, and whatever everybody else sends, at most `Allowance(limit, k)` of its
      requests to one endpoint are let through in any half-open interval of `k` minutes. */
  lemma ClientIsLimited(rs: seq<Request>, hopCount: nat, path: string, address: string, limit: int, lo: real, k: nat)
    requires forall i :: 0 <= i < |rs| ==> BehindHops(rs[i], hopCount)
    requires Sorted(TimesOf(CallsFor(rs, hopCount), WindowKey(path, address)))
    ensures LetThrough(rs, hopCount, path, address, limit, lo, lo + Windows(k)) <= Allowance(limit, k)
  {
    hide LetThrough, AcceptedIn, Sorted, Timely, TimesOf, CallsFor;
    LetThroughIsBounded(rs, hopCount, path, address, limit, lo, lo + Windows(k));
    var calls, key := CallsFor(rs, hopCount), WindowKey(path, address);
    SortedIsTimely(None, TimesOf(calls, key));
    SlidingBoundIfTimely(calls, key, limit, lo, k);
  }
}
