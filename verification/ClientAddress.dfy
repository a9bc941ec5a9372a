/**
 Trusted proxies and the client address (internal/config/config.go, internal/gateway/trusted_proxy.go).

 Addresses are numbers; parsing text into addresses is foreign, so inputs arrive parsed.
 */
module ClientAddress {
  import opened Common
  // ---------------------------------------------------------------- addresses and prefixes

  /** n >> k */
  function Shift(n: nat, k: nat): nat
    decreases k
  {
    if k == 0 then n else Shift(n / 2, k - 1)
  }

  const V4_LIMIT: nat := 0x1_0000_0000
  const V6_LIMIT: nat := 0x1_0000_0000_0000_0000_0000_0000_0000_0000
  const MAPPED: nat := 0xffff

  datatype Addr = V4(bits: nat) | V6(bits: nat, zone: string)

  predicate IsAddr(a: Addr) {
    a.bits < if a.V4? then V4_LIMIT else V6_LIMIT
  }

  /** An IPv4-mapped IPv6 address, ::ffff:0:0/96 (section 2.5.5.2 of RFC 4291). */
  predicate Is4In6(a: Addr) {
    a.V6? && Shift(a.bits, 32) == MAPPED
  }

  function Unmap(a: Addr): Addr {
    if Is4In6(a) then V4(a.bits % V4_LIMIT) else a
  }

  function BitLen(a: Addr): nat {
    if a.V4? then 32 else 128
  }

  datatype Prefix = Prefix(addr: Addr, len: nat)

  predicate IsPrefix(p: Prefix) {
    IsAddr(p.addr) && p.len <= BitLen(p.addr) && (p.addr.V6? ==> p.addr.zone == "")
  }

  /** netip.PrefixFrom: the zone is dropped, the host bits are not. */
  function PrefixFrom(a: Addr, len: nat): Prefix {
    Prefix(if a.V6? then V6(a.bits, "") else a, len)
  }

  /** Clear the lowest `k` bits. */
  function ClearLow(n: nat, k: nat): (m: nat)
    ensures m <= n && Shift(m, k) == Shift(n, k)
    decreases k
  {
    if k == 0 then n else 2 * ClearLow(n / 2, k - 1)
  }

  /** netip.Prefix.Masked */
  function Masked(p: Prefix): (m: Prefix)
    requires IsPrefix(p)
    ensures IsPrefix(m) && m.len == p.len
  {
    var bits := ClearLow(p.addr.bits, BitLen(p.addr) - p.len);
    Prefix(if p.addr.V4? then V4(bits) else V6(bits, ""), p.len)
  }

  /** netip.Prefix.Contains: families do not match each other and a zoned address matches nothing. */
  predicate Contains(p: Prefix, a: Addr)
    requires IsPrefix(p)
  {
    && (a.V6? ==> a.zone == "")
    && (a.V4? <==> p.addr.V4?)
    && var host := BitLen(p.addr) - p.len;
       Shift(a.bits, host) == Shift(p.addr.bits, host)
  }

  // ---------------------------------------------------------------- what an entry means

  /** One entry of trusted_proxies, as the parser sees it. */
  datatype Entry = Blank | BadCidr | Cidr(prefix: Prefix) | BadIP | Single(addr: Addr)

  predicate IsEntry(e: Entry) {
    match e
    case Cidr(p) => IsPrefix(p)
    case Single(a) => IsAddr(a)
    case _ => true
  }

  /** The position of an address in the IPv6 space, IPv4 addresses at their mapped place. */
  function Embed(a: Addr): nat {
    if a.V4? then MAPPED * V4_LIMIT + a.bits else a.bits
  }

  /** The IPv6-space length of a prefix. */
  function EmbedLen(p: Prefix): nat {
    if p.addr.V4? then p.len + 96 else p.len
  }

  /**
   The addresses an entry is meant to trust, said once for both families: those whose embedding shares
   the entry's leading bits.  An IPv6 range that does not lie inside the mapped block speaks of IPv6
   addresses only, and a zone matches nothing.
   */
  ghost predicate Denotes(e: Entry, a: Addr)
    requires IsEntry(e)
  {
    match e
    case Cidr(p) =>
      && (a.V6? ==> a.zone == "")
      && (a.V4? ==> EmbedLen(p) >= 96)
      && EmbedLen(p) <= 128
      && Shift(Embed(a), 128 - EmbedLen(p)) == Shift(Embed(p.addr), 128 - EmbedLen(p))
    case Single(x) => (a.V6? ==> a.zone == "") && Embed(a) == Embed(x)
    case _ => false
  }

  // ---------------------------------------------------------------- shifting

  lemma {:induction false} ShiftTwice(n: nat, a: nat, b: nat)
    ensures Shift(Shift(n, a), b) == Shift(n, a + b)
    decreases a
  {
    if a > 0 {
      ShiftTwice(n / 2, a - 1, b);
    }
  }

  lemma ShiftByte(n: nat)
    ensures Shift(n, 8) == n / 0x100
  {
    assert Shift(n, 8) == Shift(n / 2 / 2 / 2 / 2, 4);
    assert Shift(n / 16, 4) == n / 16 / 2 / 2 / 2 / 2;
  }

  lemma ShiftWord(n: nat)
    ensures Shift(n, 32) == n / V4_LIMIT
  {
    ShiftByte(n);
    ShiftTwice(n, 8, 8);
    ShiftByte(Shift(n, 8));
    ShiftTwice(n, 16, 8);
    ShiftByte(Shift(n, 16));
    ShiftTwice(n, 24, 8);
    ShiftByte(Shift(n, 24));
  }

  /** The mapped marker, j bits up. */
  function Marker(j: nat): nat {
    if j == 0 then MAPPED else 2 * Marker(j - 1)
  }

  lemma MarkerByte(j: nat)
    ensures Marker(j + 8) == 0x100 * Marker(j)
  {
    MarkerNibble(j);
    MarkerNibble(j + 4);
  }

  lemma MarkerNibble(j: nat)
    ensures Marker(j + 4) == 16 * Marker(j)
  {
    assert Marker(j + 1) == 2 * Marker(j);
    assert Marker(j + 2) == 2 * Marker(j + 1);
    assert Marker(j + 3) == 2 * Marker(j + 2);
  }

  lemma MarkerWord()
    ensures Marker(32) == MAPPED * V4_LIMIT
  {
    MarkerByte(0);
    MarkerByte(8);
    MarkerByte(16);
    MarkerByte(24);
  }

  /** Below the marker the bits shift by themselves. */
  lemma {:induction false} MarkerShift(v: nat, j: nat, k: nat)
    requires k <= j
    ensures Shift(Marker(j) + v, k) == Marker(j - k) + Shift(v, k)
    decreases k
  {
    if k > 0 {
      assert (2 * Marker(j - 1) + v) / 2 == Marker(j - 1) + v / 2;
      MarkerShift(v / 2, j - 1, k - 1);
    }
  }

  lemma MappedTop(v: nat, k: nat)
    requires k <= 32
    ensures Shift(MAPPED * V4_LIMIT + v, k) == Marker(32 - k) + Shift(v, k)
  {
    MarkerWord();
    MarkerShift(v, 32, k);
  }

  /** Numbers agreeing down to some bit of the last 32 agree above them. */
  lemma AgreeingAbove(n: nat, m: nat, k: nat)
    requires k <= 32 && Shift(n, k) == Shift(m, k)
    ensures Shift(n, 32) == Shift(m, 32)
  {
    ShiftTwice(n, k, 32 - k);
    ShiftTwice(m, k, 32 - k);
  }

  /** Bits above the cleared ones are untouched, those still cleared remain so. */
  lemma {:induction false} ClearedShift(n: nat, k: nat, j: nat)
    requires j <= k
    ensures Shift(ClearLow(n, k), j) == ClearLow(Shift(n, j), k - j)
    decreases j
  {
    if j > 0 {
      assert 2 * ClearLow(n / 2, k - 1) / 2 == ClearLow(n / 2, k - 1);
      ClearedShift(n / 2, k - 1, j - 1);
    }
  }

  /** Clearing more than 32 bits clears the marker: it is odd. */
  lemma WideIsNotMapped(n: nat, k: nat)
    requires k > 32
    ensures Shift(ClearLow(n, k), 32) != MAPPED
  {
    ClearedShift(n, k, 32);
    var top := Shift(n, 32);
    assert ClearLow(top, k - 32) == 2 * ClearLow(top / 2, k - 33);
  }

  // ---------------------------------------------------------------- normalisation

  predicate Accepted(e: Entry) {
    e.Cidr? || e.Single?
  }

  predicate Usable(e: Entry) {
    IsEntry(e) && Accepted(e)
  }

  /** One pass of the loop of parseTrustedProxies over an accepted entry. */
  function Normalize(e: Entry): (p: Prefix)
    requires Usable(e)
    ensures IsPrefix(p)
  {
    var prefix :=
      if e.Cidr? then Masked(e.prefix)
      else PrefixFrom(Unmap(e.addr), BitLen(Unmap(e.addr)));
    if Is4In6(prefix.addr) then
      var bits := if prefix.len < 96 then 0 else prefix.len - 96;
      Masked(PrefixFrom(Unmap(prefix.addr), bits))
    else prefix
  }

  /** The clamp of a negative length at zero is unreachable: masking a shorter prefix clears the mapped
      marker. */
  lemma ClampUnreachable(p: Prefix)
    requires IsPrefix(p) && Is4In6(Masked(p).addr)
    ensures p.len >= 96
  {
    if p.len < 96 {
      WideIsNotMapped(p.addr.bits, 128 - p.len);
    }
  }

  /** An IPv4 range, as a range of addresses and as a range of embeddings. */
  lemma V4RangeExact(v: nat, len: nat, a: Addr)
    requires v < V4_LIMIT && len <= 32 && IsAddr(a) && !Is4In6(a)
    ensures a.V4? && Shift(a.bits, 32 - len) == Shift(v, 32 - len)
            <==> Shift(Embed(a), 32 - len) == Shift(MAPPED * V4_LIMIT + v, 32 - len)
  {
    MappedTop(v, 32 - len);
    if a.V4? {
      MappedTop(a.bits, 32 - len);
    } else if Shift(a.bits, 32 - len) == Shift(MAPPED * V4_LIMIT + v, 32 - len) {
      EmbeddedIsMapped(v);
      AgreeingAbove(a.bits, MAPPED * V4_LIMIT + v, 32 - len);
    }
  }

  lemma EmbeddedIsMapped(v: nat)
    requires v < V4_LIMIT
    ensures Shift(MAPPED * V4_LIMIT + v, 32) == MAPPED
  {
    ShiftWord(MAPPED * V4_LIMIT + v);
  }

  /** No IPv4 address is embedded in an unmapped range of at least 96 bits. */
  lemma V6RangeExact(bits: nat, len: nat, a: Addr)
    requires 96 <= len <= 128 && IsAddr(a) && a.V4? && Shift(bits, 32) != MAPPED
    ensures Shift(Embed(a), 128 - len) != Shift(bits, 128 - len)
  {
    EmbeddedIsMapped(a.bits);
    if Shift(Embed(a), 128 - len) == Shift(bits, 128 - len) {
      AgreeingAbove(Embed(a), bits, 128 - len);
    }
  }

  /** The low word of a mapped address. */
  lemma MappedSplits(bits: nat)
    requires Shift(bits, 32) == MAPPED
    ensures bits == MAPPED * V4_LIMIT + bits % V4_LIMIT
  {
    ShiftWord(bits);
  }

  lemma CidrExact(p: Prefix, a: Addr)
    requires IsPrefix(p) && IsAddr(a) && !Is4In6(a)
    ensures Contains(Normalize(Cidr(p)), a) <==> Denotes(Cidr(p), a)
  {
    if p.addr.V4? {
      V4RangeExact(p.addr.bits, p.len, a);
    } else if Is4In6(Masked(p).addr) {
      MappedCidrExact(p, a);
    } else if p.len >= 96 && a.V4? {
      AgreeingAbove(Masked(p).addr.bits, p.addr.bits, 128 - p.len);
      V6RangeExact(p.addr.bits, p.len, a);
    }
  }

  /** A mapped range becomes the IPv4 range of its low word. */
  lemma MappedNormal(p: Prefix)
    requires IsPrefix(p) && p.addr.V6? && Is4In6(Masked(p).addr)
    ensures p.len >= 96
    ensures var low := Masked(p).addr.bits % V4_LIMIT;
            Normalize(Cidr(p)) == Masked(Prefix(V4(low), p.len - 96))
  {
    ClampUnreachable(p);
  }

  lemma MappedCidrExact(p: Prefix, a: Addr)
    requires IsPrefix(p) && p.addr.V6? && Is4In6(Masked(p).addr) && IsAddr(a) && !Is4In6(a)
    ensures Contains(Normalize(Cidr(p)), a) <==> Denotes(Cidr(p), a)
  {
    MappedNormal(p);
    var bits := Masked(p).addr.bits;
    MappedSplits(bits);
    V4RangeExact(bits % V4_LIMIT, p.len - 96, a);
    MaskedContains(Prefix(V4(bits % V4_LIMIT), p.len - 96), a);
    assert Shift(bits, 128 - p.len) == Shift(p.addr.bits, 128 - p.len);
  }

  /** Masking does not change what a prefix contains. */
  lemma MaskedContains(p: Prefix, a: Addr)
    requires IsPrefix(p)
    ensures Contains(Masked(p), a) <==> Contains(p, a)
  {
  }

  lemma SingleExact(x: Addr, a: Addr)
    requires IsAddr(x) && IsAddr(a) && !Is4In6(a)
    ensures Contains(Normalize(Single(x)), a) <==> Denotes(Single(x), a)
  {
    if Is4In6(x) {
      MappedSplits(x.bits);
    }
    if a.V4? {
      EmbeddedIsMapped(a.bits);
    }
    if x.V4? {
      EmbeddedIsMapped(x.bits);
    }
  }

  // ---------------------------------------------------------------- the whole list

  ghost predicate AllEntries(entries: seq<Entry>) {
    forall i :: 0 <= i < |entries| ==> IsEntry(entries[i])
  }

  ghost predicate AllUsable(entries: seq<Entry>) {
    forall i :: 0 <= i < |entries| ==> Usable(entries[i])
  }

  predicate AllPrefixes(prefixes: seq<Prefix>) {
    forall i :: 0 <= i < |prefixes| ==> IsPrefix(prefixes[i])
  }

  /** Each accepted entry's normal form, once each. */
  ghost predicate NormalizedOnce(entries: seq<Entry>, prefixes: seq<Prefix>)
    requires AllUsable(entries)
  {
    && (forall i :: 0 <= i < |entries| ==> Normalize(entries[i]) in prefixes)
    && (forall j :: 0 <= j < |prefixes| ==> Justified(entries, prefixes[j]))
    && (forall i, j :: 0 <= i < j < |prefixes| ==> prefixes[i] != prefixes[j])
  }

  method ParseTrustedProxies(entries: seq<Entry>) returns (result: Option<seq<Prefix>>)
    requires AllEntries(entries)
    ensures result.Some? <==> forall i :: 0 <= i < |entries| ==> Accepted(entries[i])
    ensures result.Some? ==> AllUsable(entries) && AllPrefixes(result.value) && NormalizedOnce(entries, result.value)
  {
    var out: seq<Prefix> := [];
    var seen: set<Prefix> := {};
    for n := 0 to |entries|
      invariant AllUsable(entries[..n])
      invariant seen == set p | p in out
      invariant AllPrefixes(out) && NormalizedOnce(entries[..n], out)
    {
      var e := entries[n];
      if !Accepted(e) {
        return None;
      }
      var prefix := Normalize(e);
      ghost var before := out;
      if prefix !in seen {
        seen := seen + {prefix};
        out := out + [prefix];
      }
      ListGrows(entries[..n], before, e, out);
      assert entries[..n + 1] == entries[..n] + [e];
    }
    assert entries[..|entries|] == entries;
    return Some(out);
  }

  /** Appending an entry and, if it is new, its normal form. */
  lemma ListGrows(entries: seq<Entry>, prefixes: seq<Prefix>, e: Entry, more: seq<Prefix>)
    requires AllUsable(entries)
    requires Usable(e) && NormalizedOnce(entries, prefixes)
    requires more == if Normalize(e) in prefixes then prefixes else prefixes + [Normalize(e)]
    ensures AllUsable(entries + [e])
    ensures NormalizedOnce(entries + [e], more)
  {
    StillUsable(entries, e);
    StillListed(entries, prefixes, e, more);
    StillJustified(entries, prefixes, e, more);
  }

  lemma StillUsable(entries: seq<Entry>, e: Entry)
    requires AllUsable(entries) && Usable(e)
    ensures AllUsable(entries + [e])
  {
  }

  lemma StillListed(entries: seq<Entry>, prefixes: seq<Prefix>, e: Entry, more: seq<Prefix>)
    requires Usable(e) && AllUsable(entries) && AllUsable(entries + [e])
    requires forall i :: 0 <= i < |entries| ==> Normalize(entries[i]) in prefixes
    requires more == if Normalize(e) in prefixes then prefixes else prefixes + [Normalize(e)]
    ensures forall i :: 0 <= i < |entries + [e]| ==> Normalize((entries + [e])[i]) in more
  {
    forall i | 0 <= i < |entries + [e]| ensures Normalize((entries + [e])[i]) in more {
      if i < |entries| {
        assert (entries + [e])[i] == entries[i];
      }
    }
  }

  ghost predicate Justified(entries: seq<Entry>, p: Prefix)
    requires AllUsable(entries)
  {
    exists i :: 0 <= i < |entries| && Normalize(entries[i]) == p
  }

  lemma StillJustified(entries: seq<Entry>, prefixes: seq<Prefix>, e: Entry, more: seq<Prefix>)
    requires Usable(e) && AllUsable(entries) && AllUsable(entries + [e])
    requires forall j :: 0 <= j < |prefixes| ==> Justified(entries, prefixes[j])
    requires more == if Normalize(e) in prefixes then prefixes else prefixes + [Normalize(e)]
    ensures forall j :: 0 <= j < |more| ==> Justified(entries + [e], more[j])
  {
    forall j | 0 <= j < |more| ensures Justified(entries + [e], more[j]) {
      if j < |prefixes| {
        var i :| 0 <= i < |entries| && Normalize(entries[i]) == prefixes[j];
        assert (entries + [e])[i] == entries[i];
      } else {
        assert (entries + [e])[|entries|] == e;
      }
    }
  }

  ghost predicate Trusted(prefixes: seq<Prefix>, a: Addr)
    requires AllPrefixes(prefixes)
  {
    exists i :: 0 <= i < |prefixes| && Contains(prefixes[i], a)
  }

  /**
   The normalised, deduplicated list trusts exactly the addresses its entries denote, for every address
   as the gateway compares it, that is with mapped addresses already unmapped.
   */
  lemma NormalizedTrustsSame(entries: seq<Entry>, prefixes: seq<Prefix>, a: Addr)
    requires AllUsable(entries)
    requires AllPrefixes(prefixes) && NormalizedOnce(entries, prefixes)
    requires IsAddr(a) && !Is4In6(a)
    ensures Trusted(prefixes, a) <==> exists i :: 0 <= i < |entries| && Denotes(entries[i], a)
  {
    forall i | 0 <= i < |entries| ensures Contains(Normalize(entries[i]), a) <==> Denotes(entries[i], a) {
      if entries[i].Cidr? {
        CidrExact(entries[i].prefix, a);
      } else {
        SingleExact(entries[i].addr, a);
      }
    }
    if i :| 0 <= i < |entries| && Denotes(entries[i], a) {
      var j :| 0 <= j < |prefixes| && prefixes[j] == Normalize(entries[i]);
      assert Contains(prefixes[j], a);
    }
  }

  // ---------------------------------------------------------------- the client address

  method TrustedProxy(prefixes: seq<Prefix>, addr: Addr) returns (trusted: bool)
    requires AllPrefixes(prefixes)
    ensures trusted <==> Trusted(prefixes, Unmap(addr))
  {
    var a := Unmap(addr);
    for n := 0 to |prefixes|
      invariant forall i :: 0 <= i < n ==> !Contains(prefixes[i], a)
    {
      if Contains(prefixes[n], a) {
        return true;
      }
    }
    return false;
  }

  /** One comma-separated piece of an X-Forwarded-For value. */
  datatype Token = BlankToken | BadToken | Good(addr: Addr)

  ghost predicate AllGood(tokens: seq<Token>) {
    forall i :: 0 <= i < |tokens| ==> tokens[i].Good?
  }

  ghost function Flatten(values: seq<seq<Token>>): seq<Token> {
    if values == [] then [] else Flatten(values[..|values| - 1]) + values[|values| - 1]
  }

  ghost function Unmapped(tokens: seq<Token>): (addrs: seq<Addr>)
    requires AllGood(tokens)
    ensures |addrs| == |tokens|
    ensures forall i :: 0 <= i < |tokens| ==> addrs[i] == Unmap(tokens[i].addr)
  {
    seq(|tokens|, i requires 0 <= i < |tokens| => Unmap(tokens[i].addr))
  }

  lemma {:induction false} FlattenHas(values: seq<seq<Token>>, n: nat, k: nat)
    requires n < |values| && k < |values[n]|
    ensures values[n][k] in Flatten(values)
    decreases |values|
  {
    if n < |values| - 1 {
      FlattenHas(values[..|values| - 1], n, k);
    }
  }

  /** The pieces keep their order: those of a line stand together, after those of the lines before. */
  lemma {:induction false} FlattenInOrder(values: seq<seq<Token>>, n: nat, k: nat)
    requires n < |values| && k < |values[n]|
    ensures |Flatten(values[..n])| + k < |Flatten(values)|
    ensures Flatten(values)[|Flatten(values[..n])| + k] == values[n][k]
    decreases |values|
  {
    var front := values[..|values| - 1];
    if n < |front| {
      FlattenInOrder(front, n, k);
      assert front[..n] == values[..n];
    }
  }

  /** Both header lines and comma lists are walked in order; one bad piece invalidates the chain. */
  method ParseForwardedChain(values: seq<seq<Token>>) returns (chain: seq<Addr>, valid: bool)
    ensures valid <==> AllGood(Flatten(values))
    ensures valid ==> chain == Unmapped(Flatten(values))
  {
    chain := [];
    for n := 0 to |values|
      invariant AllGood(Flatten(values[..n]))
      invariant chain == Unmapped(Flatten(values[..n]))
    {
      assert values[..n + 1][..n] == values[..n];
      for k := 0 to |values[n]|
        invariant AllGood(values[n][..k])
        invariant chain == Unmapped(Flatten(values[..n])) + Unmapped(values[n][..k])
      {
        if !values[n][k].Good? {
          FlattenHas(values, n, k);
          return [], false;
        }
        assert values[n][..k + 1] == values[n][..k] + [values[n][k]];
        chain := chain + [Unmap(values[n][k].addr)];
      }
      assert values[n][..|values[n]|] == values[n];
    }
    assert values[..|values|] == values;
    return chain, true;
  }

  /** Walk the chain from the right past trusted proxies, but not past its first address. */
  ghost function ClientOf(prefixes: seq<Prefix>, chain: seq<Addr>): Addr
    requires AllPrefixes(prefixes) && chain != []
  {
    var n := |chain| - 1;
    if n > 0 && Trusted(prefixes, Unmap(chain[n])) then ClientOf(prefixes, chain[..n]) else chain[n]
  }

  /** The rightmost untrusted address. */
  lemma {:induction false} ClientIsRightmostUntrusted(prefixes: seq<Prefix>, chain: seq<Addr>, j: nat)
    requires AllPrefixes(prefixes) && j < |chain|
    requires !Trusted(prefixes, Unmap(chain[j]))
    requires forall i :: j < i < |chain| ==> Trusted(prefixes, Unmap(chain[i]))
    ensures ClientOf(prefixes, chain) == chain[j]
    decreases |chain|
  {
    if j < |chain| - 1 {
      ClientIsRightmostUntrusted(prefixes, chain[..|chain| - 1], j);
    }
  }

  /** The leftmost address when every one is trusted. */
  lemma {:induction false} ClientIsLeftmostIfAllTrusted(prefixes: seq<Prefix>, chain: seq<Addr>)
    requires AllPrefixes(prefixes) && chain != []
    requires forall i :: 0 <= i < |chain| ==> Trusted(prefixes, Unmap(chain[i]))
    ensures ClientOf(prefixes, chain) == chain[0]
    decreases |chain|
  {
    if |chain| > 1 {
      ClientIsLeftmostIfAllTrusted(prefixes, chain[..|chain| - 1]);
    }
  }

  /** A client cannot change the address it is given by prepending addresses of its own, once the chain
      the proxies built contains an untrusted one. */
  lemma {:induction false} PrependingIsHarmless(prefixes: seq<Prefix>, forged: seq<Addr>, chain: seq<Addr>)
    requires AllPrefixes(prefixes)
    requires exists j :: 0 <= j < |chain| && !Trusted(prefixes, Unmap(chain[j]))
    ensures ClientOf(prefixes, forged + chain) == ClientOf(prefixes, chain)
    decreases |chain|
  {
    var n := |chain| - 1;
    assert (forged + chain)[|forged| + n] == chain[n];
    if Trusted(prefixes, Unmap(chain[n])) {
      assert (forged + chain)[..|forged| + n] == forged + chain[..n];
      var j :| 0 <= j < |chain| && !Trusted(prefixes, Unmap(chain[j]));
      assert chain[..n][j] == chain[j];
      PrependingIsHarmless(prefixes, forged, chain[..n]);
    }
  }

  /** Without one, the first forged address is what comes out. */
  lemma {:induction false} PrependingWins(prefixes: seq<Prefix>, forged: seq<Addr>, chain: seq<Addr>)
    requires AllPrefixes(prefixes) && forged != []
    requires forall i :: 0 <= i < |chain| ==> Trusted(prefixes, Unmap(chain[i]))
    requires forall i :: 0 < i < |forged| ==> Trusted(prefixes, Unmap(forged[i]))
    ensures ClientOf(prefixes, forged + chain) == forged[0]
  {
    var whole := forged + chain;
    if Trusted(prefixes, Unmap(forged[0])) {
      ClientIsLeftmostIfAllTrusted(prefixes, whole);
    } else {
      ClientIsRightmostUntrusted(prefixes, whole, 0);
    }
  }

  /** The walk itself, an index going down. */
  method WalkChain(prefixes: seq<Prefix>, chain: seq<Addr>) returns (client: Addr)
    requires AllPrefixes(prefixes) && chain != []
    ensures client == ClientOf(prefixes, chain)
  {
    var idx := |chain| - 1;
    assert chain[..idx + 1] == chain;
    while idx > 0
      invariant 0 <= idx < |chain|
      invariant ClientOf(prefixes, chain[..idx + 1]) == ClientOf(prefixes, chain)
    {
      var hopTrusted := TrustedProxy(prefixes, chain[idx]);
      WalkStep(prefixes, chain, idx);
      if !hopTrusted {
        break;
      }
      idx := idx - 1;
    }
    WalkStep(prefixes, chain, idx);
    return chain[idx];
  }

  lemma WalkStep(prefixes: seq<Prefix>, chain: seq<Addr>, idx: nat)
    requires AllPrefixes(prefixes) && idx < |chain|
    ensures ClientOf(prefixes, chain[..idx + 1])
            == if idx > 0 && Trusted(prefixes, Unmap(chain[idx])) then ClientOf(prefixes, chain[..idx]) else chain[idx]
  {
    assert chain[..idx + 1][..idx] == chain[..idx];
  }

  /** X-Real-IP, trimmed: absent, unparsable, or an address. */
  datatype RealIP = Absent | Unparsable | RealAddr(addr: Addr)

  /** `remote` is the parsed peer address, None when it does not parse. */
  method ResolveClientIP(prefixes: seq<Prefix>, remote: Option<Addr>, forwarded: seq<seq<Token>>, realIP: RealIP)
    returns (client: Option<Addr>)
    requires AllPrefixes(prefixes)
    ensures remote.None? ==> client == None
    ensures remote.Some? ==>
              var peer := Unmap(remote.value);
              var tokens := Flatten(forwarded);
              client == Some(
                          if !Trusted(prefixes, peer) then peer
                          else if tokens != [] && AllGood(tokens) then ClientOf(prefixes, Unmapped(tokens) + [peer])
                          else if realIP.RealAddr? then Unmap(realIP.addr)
                          else peer)
  {
    if remote.None? {
      return None;
    }
    var peer := Unmap(remote.value);
    assert Unmap(peer) == peer;
    var trusted := TrustedProxy(prefixes, peer);
    if !trusted {
      return Some(peer);
    }
    var hops, valid := ParseForwardedChain(forwarded);
    if valid && |hops| > 0 {
      var found := WalkChain(prefixes, hops + [peer]);
      return Some(found);
    }
    if realIP.RealAddr? {
      return Some(Unmap(realIP.addr));
    }
    return Some(peer);
  }
}
