/**
 Which address a request came from, behind trusted proxies.

 `parse` stands for the library's address parser; everything below holds for any parser.
 */
module RealIp {
  import opened Collections
  import opened Text
  import opened Wrappers

  datatype Family = V4 | V6

  /** An address: its bits as a number, and for scoped IPv6 addresses a zone. */
  datatype Addr = Addr(family: Family, value: nat, zone: string)

  datatype Prefix = Prefix(family: Family, value: nat, bits: nat)

  function Width(family: Family): nat {
    if family == V4 then 32 else 128
  }

  function ShiftRight(x: nat, n: nat): nat {
    if n == 0 then x else ShiftRight(x / 2, n - 1)
  }

  /** The first `bits` bits agree. A zoned address is in no prefix, nor is one of the other family. */
  predicate Contains(p: Prefix, a: Addr) {
    && a.zone == "" && a.family == p.family && p.bits <= Width(p.family)
    && ShiftRight(a.value, Width(p.family) - p.bits) == ShiftRight(p.value, Width(p.family) - p.bits)
  }

  function PowerOfTwo(n: nat): (p: nat)
    ensures p > 0
  {
    if n == 0 then 1 else 2 * PowerOfTwo(n - 1)
  }

  lemma HalfThenDivide(x: nat, p: nat)
    requires p > 0
    ensures x / 2 / p == x / (2 * p)
  {
    var q, r := x / 2 / p, x / 2 % p;
    assert x / 2 == q * p + r;
    assert x == q * (2 * p) + (2 * r + x % 2);
    DivideUnique(x, 2 * p, q, 2 * r + x % 2);
  }

  lemma Multiples(m: nat, n: nat, d: nat)
    requires m <= n
    ensures m * d <= n * d
  {
    assert (n - m) * d >= 0;
    assert n * d == m * d + (n - m) * d;
  }

  lemma DivideUnique(x: nat, d: nat, q: nat, r: nat)
    requires d > 0 && x == q * d + r && r < d
    ensures x / d == q
  {
    var k := x / d;
    assert k * d <= x < k * d + d;
    assert (k + 1) * d == k * d + d && (q + 1) * d == q * d + d;
    if k < q {
      Multiples(k + 1, q, d);
    } else if k > q {
      Multiples(q + 1, k, d);
    }
  }

  lemma {:induction false} ShiftDivides(x: nat, n: nat)
    ensures ShiftRight(x, n) == x / PowerOfTwo(n)
    decreases n
  {
    if n > 0 {
      ShiftDivides(x / 2, n - 1);
      HalfThenDivide(x, PowerOfTwo(n - 1));
    }
  }

  /**
   A prefix of `bits` bits contains the addresses of its own block: those that lie between the same two consecutive
   multiples of 2 to the power of 32 (or 128) less `bits`.
   */
  lemma ContainsIff(p: Prefix, a: Addr)
    ensures var width := match p.family case V4 => 32 case V6 => 128;
            Contains(p, a) <==>
            && p.bits <= width && a.family == p.family && a.zone == ""
            && a.value / PowerOfTwo(width - p.bits) == p.value / PowerOfTwo(width - p.bits)
  {
    if p.bits <= Width(p.family) {
      ShiftDivides(a.value, Width(p.family) - p.bits);
      ShiftDivides(p.value, Width(p.family) - p.bits);
    }
  }

  predicate Trusts(trusted: seq<Prefix>, a: Addr) {
    exists i :: 0 <= i < |trusted| && Contains(trusted[i], a)
  }

  method IsTrusted(a: Addr, trusted: seq<Prefix>) returns (b: bool)
    ensures b <==> Trusts(trusted, a)
    ensures b <==> exists i :: 0 <= i < |trusted| && Contains(trusted[i], a)
  {
    for i := 0 to |trusted|
      invariant forall j :: 0 <= j < i ==> !Contains(trusted[j], a)
    {
      if Contains(trusted[i], a) {
        return true;
      }
    }
    return false;
  }

  // --- The chain -----------------------------------------------------------------------------------------

  function Split(s: string): (parts: seq<string>)
    ensures parts != []
  {
    if s == "" then [""]
    else
      var rest := Split(s[1..]);
      if s[0] == ',' then [""] + rest else [[s[0]] + rest[0]] + rest[1..]
  }

  function Join(parts: seq<string>): string
    requires parts != []
  {
    if |parts| == 1 then parts[0] else parts[0] + "," + Join(parts[1..])
  }

  /** Splitting loses nothing, and no part has a comma. */
  lemma {:induction false} SplitIsExact(s: string)
    ensures Join(Split(s)) == s
    ensures forall i :: 0 <= i < |Split(s)| ==> ',' !in Split(s)[i]
    decreases |s|
  {
    if s != "" {
      SplitIsExact(s[1..]);
      var rest := Split(s[1..]);
      if s[0] == ',' {
        assert ([""] + rest)[1..] == rest;
      } else {
        var parts := [[s[0]] + rest[0]] + rest[1..];
        assert parts[1..] == rest[1..];
        assert Join(parts) == [s[0]] + Join(rest);
      }
    }
  }

  /** The non-empty trimmed parts. */
  function Entries(parts: seq<string>): seq<string> {
    if parts == [] then []
    else
      var e := Trim(parts[0]);
      (if e == "" then [] else [e]) + Entries(parts[1..])
  }

  /** A part gives its inner text, if it has any besides blanks. */
  lemma EntryOf(part: string) returns (i: nat, j: nat)
    ensures i <= j <= |part| && Entries([part]) == if i == j then [] else [part[i..j]]
    ensures forall k :: 0 <= k < |part| && !(i <= k < j) ==> IsBlank(part[k])
    ensures i < j ==> !IsBlank(part[i]) && !IsBlank(part[j - 1])
  {
    i, j := TrimIsInner(part);
    assert [part][1..] == [];
    assert |Trim(part)| == j - i;
  }

  function Chain(headers: seq<string>): seq<string> {
    if headers == [] then [] else Entries(Split(headers[0])) + Chain(headers[1..])
  }

  /** The flattening loops. */
  method Flatten(headers: seq<string>) returns (chain: seq<string>)
    ensures chain == Chain(headers)
  {
    chain := [];
    var i := 0;
    assert headers[0..] == headers;
    while i < |headers|
      invariant 0 <= i <= |headers|
      invariant chain + Chain(headers[i..]) == Chain(headers)
    {
      var entries := SplitEntries(headers[i]);
      assert headers[i..][1..] == headers[i + 1..];
      Reassociate(chain, entries, Chain(headers[i + 1..]));
      chain := chain + entries;
      i := i + 1;
    }
  }

  method SplitEntries(header: string) returns (entries: seq<string>)
    ensures entries == Entries(Split(header))
  {
    entries := [];
    var parts := Split(header);
    var j := 0;
    assert parts[0..] == parts;
    while j < |parts|
      invariant 0 <= j <= |parts|
      invariant entries + Entries(parts[j..]) == Entries(parts)
    {
      assert parts[j..][1..] == parts[j + 1..];
      var e := Trim(parts[j]);
      if e != "" {
        entries := entries + [e];
      }
      j := j + 1;
    }
  }

  // --- The walk --------------------------------------------------------------------------------------------

  /** The walk passes over entries that parse and are trusted. */
  predicate Passes(parse: string -> Option<Addr>, trusted: seq<Prefix>, entry: string) {
    parse(entry).Some? && Trusts(trusted, parse(entry).value)
  }

  /** The walk from the right stops at entry k. */
  ghost predicate StopsAt(parse: string -> Option<Addr>, trusted: seq<Prefix>, chain: seq<string>, k: int) {
    && 0 <= k < |chain| && !Passes(parse, trusted, chain[k])
    && forall j :: k < j < |chain| ==> Passes(parse, trusted, chain[j])
  }

  ghost predicate Stops(parse: string -> Option<Addr>, trusted: seq<Prefix>, chain: seq<string>) {
    exists k :: StopsAt(parse, trusted, chain, k)
  }

  /**
   The rightmost entry that does not pass decides: its address if it has one, the peer otherwise; and the peer
   if every entry passes.
   */
  ghost predicate Resolves(parse: string -> Option<Addr>, trusted: seq<Prefix>, chain: seq<string>, peer: Addr,
                           client: Addr)
  {
    && (forall k :: StopsAt(parse, trusted, chain, k) ==>
          client == if parse(chain[k]).Some? then parse(chain[k]).value else peer)
    && (!Stops(parse, trusted, chain) ==> client == peer)
  }

  lemma {:induction false} StopsOrPasses(parse: string -> Option<Addr>, trusted: seq<Prefix>, chain: seq<string>)
    ensures Stops(parse, trusted, chain) || forall j :: 0 <= j < |chain| ==> Passes(parse, trusted, chain[j])
    decreases |chain|
  {
    if chain != [] {
      var tail := chain[1..];
      assert forall j :: 0 <= j < |tail| ==> tail[j] == chain[j + 1];
      StopsOrPasses(parse, trusted, tail);
      if Stops(parse, trusted, tail) {
        var k :| StopsAt(parse, trusted, tail, k);
        forall j | k + 1 < j < |chain|
          ensures Passes(parse, trusted, chain[j])
        {
          assert chain[j] == tail[j - 1];
        }
        assert StopsAt(parse, trusted, chain, k + 1);
      } else if !Passes(parse, trusted, chain[0]) {
        forall j | 0 < j < |chain|
          ensures Passes(parse, trusted, chain[j])
        {
          assert chain[j] == tail[j - 1];
        }
        assert StopsAt(parse, trusted, chain, 0);
      } else {
        forall j | 0 <= j < |chain|
          ensures Passes(parse, trusted, chain[j])
        {
          assert j > 0 ==> chain[j] == tail[j - 1];
        }
      }
    }
  }

  /** The entry is the address of a trusted proxy. */
  ghost predicate IsProxy(parse: string -> Option<Addr>, trusted: seq<Prefix>, entry: string) {
    match parse(entry)
    case None => false
    case Some(a) => exists i :: 0 <= i < |trusted| && Contains(trusted[i], a)
  }

  /** Entry k names the client, or no one if it is malformed; all behind it are trusted proxies. */
  ghost predicate Decides(parse: string -> Option<Addr>, trusted: seq<Prefix>, chain: seq<string>, k: int) {
    && 0 <= k < |chain| && !IsProxy(parse, trusted, chain[k])
    && forall j :: k < j < |chain| ==> IsProxy(parse, trusted, chain[j])
  }

  /** The client is the deciding entry's address, and the peer if that has none or nobody decides. */
  ghost predicate IsClient(parse: string -> Option<Addr>, trusted: seq<Prefix>, chain: seq<string>, peer: Addr,
                           client: Addr)
  {
    || (exists k :: Decides(parse, trusted, chain, k) && parse(chain[k]) == Some(client))
    || (client == peer && exists k :: Decides(parse, trusted, chain, k) && parse(chain[k]) == None)
    || (client == peer && forall j :: 0 <= j < |chain| ==> IsProxy(parse, trusted, chain[j]))
  }

  lemma ResolvesIsClient(parse: string -> Option<Addr>, trusted: seq<Prefix>, chain: seq<string>, peer: Addr,
                         client: Addr)
    requires Resolves(parse, trusted, chain, peer, client)
    ensures IsClient(parse, trusted, chain, peer, client)
  {
    forall j | 0 <= j < |chain|
      ensures Passes(parse, trusted, chain[j]) <==> IsProxy(parse, trusted, chain[j])
    {
    }
    StopsOrPasses(parse, trusted, chain);
    if k :| StopsAt(parse, trusted, chain, k) {
      assert Decides(parse, trusted, chain, k);
    }
  }

  method WalkXFF(parse: string -> Option<Addr>, headers: seq<string>, peer: Addr, trusted: seq<Prefix>)
    returns (client: Addr)
    ensures Resolves(parse, trusted, Chain(headers), peer, client)
    ensures IsClient(parse, trusted, Chain(headers), peer, client)
  {
    var chain := Flatten(headers);
    var i := |chain| - 1;
    while i >= 0
      invariant -1 <= i < |chain|
      invariant forall j :: i < j < |chain| ==> Passes(parse, trusted, chain[j])
    {
      var addr := parse(chain[i]);
      if addr.None? {
        assert StopsAt(parse, trusted, chain, i);
        ResolvesIsClient(parse, trusted, chain, peer, peer);
        return peer;
      }
      var t := IsTrusted(addr.value, trusted);
      if !t {
        assert StopsAt(parse, trusted, chain, i);
        ResolvesIsClient(parse, trusted, chain, peer, addr.value);
        return addr.value;
      }
      i := i - 1;
    }
    ResolvesIsClient(parse, trusted, chain, peer, peer);
    return peer;
  }

  /** The middleware: the header counts only when the peer itself is a trusted proxy. */
  method ClientAddr(parse: string -> Option<Addr>, headers: seq<string>, peer: Addr, trusted: seq<Prefix>)
    returns (client: Addr)
    ensures !Trusts(trusted, peer) ==> client == peer
    ensures Trusts(trusted, peer) ==> Resolves(parse, trusted, Chain(headers), peer, client)
    ensures if exists i :: 0 <= i < |trusted| && Contains(trusted[i], peer)
            then IsClient(parse, trusted, Chain(headers), peer, client) else client == peer
  {
    client := peer;
    if |trusted| > 0 {
      var t := IsTrusted(peer, trusted);
      if t {
        client := WalkXFF(parse, headers, peer, trusted);
      }
    }
  }

  /** There is exactly one client the walk can name. */
  lemma ResolvesToOne(parse: string -> Option<Addr>, trusted: seq<Prefix>, chain: seq<string>, peer: Addr, a: Addr,
                      b: Addr)
    requires Resolves(parse, trusted, chain, peer, a) && Resolves(parse, trusted, chain, peer, b)
    ensures a == b
  {
    if k :| StopsAt(parse, trusted, chain, k) {
      assert StopsAt(parse, trusted, chain, k);
    }
  }

  // --- What a client cannot influence ------------------------------------------------------------------------

  lemma {:induction false} ChainJoin(a: seq<string>, b: seq<string>)
    ensures Chain(a + b) == Chain(a) + Chain(b)
    decreases |a|
  {
    if a == [] {
      assert a + b == b;
    } else {
      var first := Entries(Split(a[0]));
      ChainJoin(a[1..], b);
      assert (a + b)[0] == a[0] && (a + b)[1..] == a[1..] + b;
      assert Chain(a + b) == first + Chain(a[1..] + b);
      Reassociate(first, Chain(a[1..]), Chain(b));
    }
  }

  lemma StopsInSuffix(parse: string -> Option<Addr>, trusted: seq<Prefix>, front: seq<string>, chain: seq<string>,
                      k: int)
    requires StopsAt(parse, trusted, chain, k)
    ensures StopsAt(parse, trusted, front + chain, |front| + k)
  {
    forall j | |front| + k < j < |front + chain|
      ensures Passes(parse, trusted, (front + chain)[j])
    {
      assert (front + chain)[j] == chain[j - |front|];
    }
  }

  lemma StopsInFront(parse: string -> Option<Addr>, trusted: seq<Prefix>, front: seq<string>, chain: seq<string>,
                     k: int)
    requires !Stops(parse, trusted, chain) && StopsAt(parse, trusted, front + chain, k)
    ensures StopsAt(parse, trusted, front, k) && (front + chain)[k] == front[k]
  {
    StopsOrPasses(parse, trusted, chain);
    assert forall i :: 0 <= i < |chain| ==> chain[i] == (front + chain)[|front| + i];
    forall j | k < j < |front|
      ensures Passes(parse, trusted, front[j])
    {
      assert (front + chain)[j] == front[j];
    }
  }

  lemma OnlyStop(parse: string -> Option<Addr>, trusted: seq<Prefix>, chain: seq<string>, j: int, k: int)
    requires StopsAt(parse, trusted, chain, j) && StopsAt(parse, trusted, chain, k)
    ensures j == k
  {
  }

  /**
   Header values put in front, which is all a client can do, change nothing once the walk has stopped; if every
   entry passes, the values in front decide alone.
   */
  lemma PrependedHeaders(parse: string -> Option<Addr>, trusted: seq<Prefix>, extra: seq<string>, headers: seq<string>,
                         peer: Addr, client: Addr)
    ensures Resolves(parse, trusted, Chain(extra + headers), peer, client)
            <==> Resolves(parse, trusted,
                          if Stops(parse, trusted, Chain(headers)) then Chain(headers) else Chain(extra), peer, client)
  {
    var front, chain := Chain(extra), Chain(headers);
    ChainJoin(extra, headers);
    if Stops(parse, trusted, chain) {
      PrependedToStopped(parse, trusted, front, chain, peer, client);
    } else {
      PrependedToTrusted(parse, trusted, front, chain, peer, client);
    }
  }

  lemma PrependedToStopped(parse: string -> Option<Addr>, trusted: seq<Prefix>, front: seq<string>, chain: seq<string>,
                           peer: Addr, client: Addr)
    requires Stops(parse, trusted, chain)
    ensures Resolves(parse, trusted, front + chain, peer, client) <==> Resolves(parse, trusted, chain, peer, client)
  {
    var k :| StopsAt(parse, trusted, chain, k);
    StopsInSuffix(parse, trusted, front, chain, k);
    forall j | StopsAt(parse, trusted, front + chain, j)
      ensures j == |front| + k
    {
      OnlyStop(parse, trusted, front + chain, j, |front| + k);
    }
    forall j | StopsAt(parse, trusted, chain, j)
      ensures j == k
    {
      OnlyStop(parse, trusted, chain, j, k);
    }
    assert (front + chain)[|front| + k] == chain[k];
  }

  lemma PrependedToTrusted(parse: string -> Option<Addr>, trusted: seq<Prefix>, front: seq<string>, chain: seq<string>,
                           peer: Addr, client: Addr)
    requires !Stops(parse, trusted, chain)
    ensures Resolves(parse, trusted, front + chain, peer, client) <==> Resolves(parse, trusted, front, peer, client)
  {
    StopsOrPasses(parse, trusted, chain);
    forall k | StopsAt(parse, trusted, front + chain, k)
      ensures StopsAt(parse, trusted, front, k) && (front + chain)[k] == front[k]
    {
      StopsInFront(parse, trusted, front, chain, k);
    }
    forall k | StopsAt(parse, trusted, front, k)
      ensures StopsAt(parse, trusted, front + chain, k) && (front + chain)[k] == front[k]
    {
      forall j | k < j < |front + chain|
        ensures Passes(parse, trusted, (front + chain)[j])
      {
        assert (front + chain)[j] == if j < |front| then front[j] else chain[j - |front|];
      }
    }
  }

  // --- What the comment promises -----------------------------------------------------------------------------

  /** As documented: the first entry from the right that is not trusted, or the peer if the whole chain is. */
  ghost predicate Documented(parse: string -> Option<Addr>, trusted: seq<Prefix>, chain: seq<string>,
                             peer: Addr, client: Addr)
  {
    && (forall k :: StopsAt(parse, trusted, chain, k) ==> parse(chain[k]) == Some(client))
    && (!Stops(parse, trusted, chain) ==> client == peer)
  }

  /** The entry at which the walk stops has no address. */
  ghost predicate StopsAtMalformed(parse: string -> Option<Addr>, trusted: seq<Prefix>, chain: seq<string>) {
    exists k :: StopsAt(parse, trusted, chain, k) && parse(chain[k]).None?
  }

  /** The walk does as documented exactly when it does not stop at a malformed entry; there it names the peer. */
  lemma DocumentedIff(parse: string -> Option<Addr>, trusted: seq<Prefix>, chain: seq<string>, peer: Addr, client: Addr)
    requires Resolves(parse, trusted, chain, peer, client)
    ensures Documented(parse, trusted, chain, peer, client) <==> !StopsAtMalformed(parse, trusted, chain)
    ensures StopsAtMalformed(parse, trusted, chain) ==> client == peer
  {
    if j :| StopsAt(parse, trusted, chain, j) && parse(chain[j]).None? {
      assert parse(chain[j]) != Some(client);
    }
  }

  lemma {:induction false} SplitWithoutComma(s: string)
    requires ',' !in s
    ensures Split(s) == [s]
    decreases |s|
  {
    if s != "" {
      assert s[0] != ',' && ',' !in s[1..];
      SplitWithoutComma(s[1..]);
      assert [s[0]] + s[1..] == s;
    }
  }

  predicate IsEntry(s: string) {
    s != "" && Trim(s) == s && ',' !in s
  }

  lemma ChainOfEntry(entry: string)
    requires IsEntry(entry)
    ensures Chain([entry]) == [entry]
  {
    SplitWithoutComma(entry);
    assert [entry][1..] == [];
    assert Entries([entry]) == [entry] + Entries([]);
  }

  /** A malformed last value hides the rest of the chain, whatever it says. */
  lemma MalformedLast(parse: string -> Option<Addr>, trusted: seq<Prefix>, headers: seq<string>, bad: string,
                      peer: Addr, client: Addr)
    requires IsEntry(bad) && parse(bad).None?
    ensures StopsAtMalformed(parse, trusted, Chain(headers + [bad]))
    ensures Resolves(parse, trusted, Chain(headers + [bad]), peer, client) <==> client == peer
  {
    var chain := Chain(headers) + [bad];
    ChainJoin(headers, [bad]);
    ChainOfEntry(bad);
    assert StopsAt(parse, trusted, chain, |chain| - 1);
    forall k | StopsAt(parse, trusted, chain, k)
      ensures k == |chain| - 1
    {
      OnlyStop(parse, trusted, chain, k, |chain| - 1);
    }
  }

  /** So an untrusted address in front of it is in the chain and is not returned. */
  lemma MalformedHides(parse: string -> Option<Addr>, trusted: seq<Prefix>, first: string, bad: string,
                       outside: Addr, peer: Addr)
    requires IsEntry(first) && parse(first) == Some(outside) && !Trusts(trusted, outside) && outside != peer
    requires IsEntry(bad) && parse(bad).None?
    ensures var chain := Chain([first] + [bad]);
            && chain == [first, bad] && !Documented(parse, trusted, chain, peer, peer)
            && Resolves(parse, trusted, chain, peer, peer) && !Resolves(parse, trusted, chain, peer, outside)
  {
    MalformedLast(parse, trusted, [first], bad, peer, peer);
    MalformedLast(parse, trusted, [first], bad, peer, outside);
    DocumentedIff(parse, trusted, Chain([first] + [bad]), peer, peer);
    ChainJoin([first], [bad]);
    ChainOfEntry(first);
    ChainOfEntry(bad);
  }

  /** Two header lines, "203.0.113.9" and "_". */
  lemma MalformedHeader(parse: string -> Option<Addr>, trusted: seq<Prefix>, outside: Addr, peer: Addr)
    requires parse("_").None? && parse("203.0.113.9") == Some(outside)
    requires !Trusts(trusted, outside) && Trusts(trusted, peer)
    ensures exists headers :: Resolves(parse, trusted, Chain(headers), peer, peer)
                              && !Documented(parse, trusted, Chain(headers), peer, peer)
  {
    MalformedHides(parse, trusted, "203.0.113.9", "_", outside, peer);
  }

  // --- Header lines ---------------------------------------------------------------------------------------------

  /** What one more character in front does to the parts. */
  function Front(c: char, parts: seq<string>): seq<string>
    requires parts != []
  {
    if c == ',' then [""] + parts else [[c] + parts[0]] + parts[1..]
  }

  lemma SplitStep(c: char, s: string)
    ensures Split([c] + s) == Front(c, Split(s))
  {
    assert ([c] + s)[1..] == s;
  }

  lemma FrontJoin(c: char, parts: seq<string>, more: seq<string>)
    requires parts != []
    ensures Front(c, parts + more) == Front(c, parts) + more
  {
    assert (parts + more)[1..] == parts[1..] + more;
  }

  lemma {:induction false} SplitAtComma(a: string, b: string)
    ensures Split(a + "," + b) == Split(a) + Split(b)
    decreases |a|
  {
    if a == "" {
      assert a + "," + b == "," + b;
      assert ("," + b)[1..] == b;
    } else {
      var tail := a[1..] + "," + b;
      SplitAtComma(a[1..], b);
      assert a + "," + b == [a[0]] + tail && a == [a[0]] + a[1..];
      SplitStep(a[0], tail);
      SplitStep(a[0], a[1..]);
      FrontJoin(a[0], Split(a[1..]), Split(b));
    }
  }

  lemma {:induction false} EntriesJoin(a: seq<string>, b: seq<string>)
    ensures Entries(a + b) == Entries(a) + Entries(b)
    decreases |a|
  {
    if a == [] {
      assert a + b == b;
    } else {
      EntriesJoin(a[1..], b);
      assert (a + b)[0] == a[0] && (a + b)[1..] == a[1..] + b;
      Reassociate(if Trim(a[0]) == "" then [] else [Trim(a[0])], Entries(a[1..]), Entries(b));
    }
  }

  lemma LeadingSpace(b: string)
    ensures Entries(Split(" " + b)) == Entries(Split(b))
  {
    var rest := Split(b);
    assert (" " + b)[1..] == b;
    assert Split(" " + b) == [" " + rest[0]] + rest[1..];
    assert (" " + rest[0])[1..] == rest[0];
    assert Trim(" " + rest[0]) == Trim(rest[0]);
    assert ([" " + rest[0]] + rest[1..])[1..] == rest[1..];
  }

  /**
   One header line or two: joining lines with a comma, or with a comma and a space, gives the same chain, so a
   proxy that combines field lines (section 5.2 of RFC 9110) does not change the client.
   */
  lemma LinesJoin(before: seq<string>, a: string, b: string, after: seq<string>)
    ensures Chain(before + [a, b] + after) == Chain(before + [a + "," + b] + after)
    ensures Chain(before + [a, b] + after) == Chain(before + [a + ", " + b] + after)
  {
    ChainOfTwo(a, b);
    ChainOfTwo(a, " " + b);
    LeadingSpace(b);
    assert a + "," + (" " + b) == a + ", " + b;
    InContext(before, [a, b], after);
    InContext(before, [a + "," + b], after);
    InContext(before, [a + ", " + b], after);
  }

  lemma InContext(before: seq<string>, mid: seq<string>, after: seq<string>)
    ensures Chain(before + mid + after) == Chain(before) + Chain(mid) + Chain(after)
  {
    ChainJoin(before, mid);
    ChainJoin(before + mid, after);
  }

  lemma ChainOfTwo(a: string, b: string)
    ensures Chain([a, b]) == Entries(Split(a)) + Entries(Split(b)) == Chain([a + "," + b])
  {
    assert [a, b][1..] == [b] && [b][1..] == [] && [a + "," + b][1..] == [];
    assert Chain([b]) == Entries(Split(b)) + Chain([]);
    assert Chain([a + "," + b]) == Entries(Split(a + "," + b)) + Chain([]);
    SplitAtComma(a, b);
    EntriesJoin(Split(a), Split(b));
  }
}
