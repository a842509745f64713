/**
 * The string keys under which the store memoises slice placements: they are built from numbers and a
 * free-form cache name, and the part that selects the segment is cut out again by searching for "_L".
 */
module PlacementKeys {
  import opened Numbers

  // ---------------------------------------------------------------- decimal text

  function Digit(d: nat): char
    requires d < 10
  {
    ('0' as int + d) as char
  }

  predicate IsDigit(c: char) {
    '0' <= c <= '9'
  }

  function Decimal(n: nat): string {
    if n < 10 then [Digit(n)] else Decimal(n / 10) + [Digit(n % 10)]
  }

  predicate AllDigits(s: string) {
    forall i | 0 <= i < |s| :: IsDigit(s[i])
  }

  function Value(s: string): nat
    requires AllDigits(s)
  {
    if s == [] then 0 else 10 * Value(s[..|s| - 1]) + (s[|s| - 1] as int - '0' as int)
  }

  lemma {:induction false} DecimalDigits(n: nat)
    ensures AllDigits(Decimal(n)) && |Decimal(n)| > 0
  {
    if n >= 10 {
      DecimalDigits(n / 10);
    }
  }

  lemma {:induction false} DecimalValue(n: nat)
    ensures AllDigits(Decimal(n)) && Value(Decimal(n)) == n
  {
    DecimalDigits(n);
    if n >= 10 {
      DecimalValue(n / 10);
      assert Decimal(n)[..|Decimal(n)| - 1] == Decimal(n / 10);
    } else {
      assert Value([]) == 0;
      assert Decimal(n)[..0] == [];
    }
  }

  lemma {:induction false} DecimalInjective(a: nat, b: nat)
    requires Decimal(a) == Decimal(b)
    ensures a == b
  {
    DecimalValue(a);
    DecimalValue(b);
  }

  lemma {:induction false} DecimalAsWritten()
    ensures Decimal(0) == "0" && Decimal(10) == "10" && Decimal(4096) == "4096"
  {
    assert Decimal(4) == "4" && Decimal(40) == "40" && Decimal(409) == "409";
  }

  predicate StartsWithDigit(s: string) {
    s != [] && IsDigit(s[0])
  }

  /** A leading run of digits cannot be longer than one that a non-digit ends. */
  lemma {:induction false} DigitRun(a: string, x: string, b: string, y: string)
    requires AllDigits(b) && a + x == b + y && !StartsWithDigit(x)
    ensures |b| <= |a|
  {
    assert forall i | 0 <= i < |b| :: IsDigit((b + y)[i]);
    assert x != [] ==> !IsDigit((a + x)[|a|]);
    assert |a + x| == |b + y|;
  }

  /** A number followed by something that is not a digit can be read back in one way only. */
  lemma {:induction false} NumberSplits(a: nat, x: string, b: nat, y: string)
    requires Decimal(a) + x == Decimal(b) + y
    requires !StartsWithDigit(x) && !StartsWithDigit(y)
    ensures a == b && x == y
  {
    DecimalDigits(a);
    DecimalDigits(b);
    var m, n := |Decimal(a)|, |Decimal(b)|;
    DigitRun(Decimal(a), x, Decimal(b), y);
    DigitRun(Decimal(b), y, Decimal(a), x);
    assert Decimal(a) == (Decimal(a) + x)[..m] == (Decimal(b) + y)[..n] == Decimal(b);
    assert x == (Decimal(a) + x)[m..] == (Decimal(b) + y)[n..] == y;
    DecimalInjective(a, b);
  }

  // ---------------------------------------------------------------- keys

  function GroupKey(rank: nat, tokens: nat, key: nat, shared: bool): string {
    if shared then "tokens" + (Decimal(tokens) + ("_key" + Decimal(key)))
    else "rank" + (Decimal(rank) + ("_tokens" + (Decimal(tokens) + ("_key" + Decimal(key)))))
  }

  function LayerSuffix(layer: nat, cacheName: string): string {
    "_L" + (Decimal(layer) + ("_" + cacheName))
  }

  /** BuildSlicePlacementKey. */
  function BuildSlicePlacementKey(rank: nat, tokens: nat, key: nat, layer: nat, cacheName: string,
                                  shared: bool): string {
    GroupKey(rank, tokens, key, shared) + LayerSuffix(layer, cacheName)
  }

  predicate MarkerAt(s: string, i: nat) {
    i + 1 < |s| && s[i] == '_' && s[i + 1] == 'L'
  }

  /** std::string::find("_L", from). */
  function FindMarker(s: string, from: nat): (r: Option<nat>)
    requires from <= |s|
    ensures r.Some? ==> from <= r.value && MarkerAt(s, r.value) && forall i | from <= i < r.value :: !MarkerAt(s, i)
    ensures r.None? ==> forall i | from <= i :: !MarkerAt(s, i)
    decreases |s| - from
  {
    if from == |s| then None
    else if MarkerAt(s, from) then Some(from)
    else FindMarker(s, from + 1)
  }

  /** ExtractKeyPlacementGroupKey. */
  function ExtractKeyPlacementGroupKey(sliceKey: string): Outcome<string> {
    match FindMarker(sliceKey, 0)
    case None => Threw("invalid slice placement key")
    case Some(p) => if p == 0 then Threw("invalid slice placement key") else Returned(sliceKey[..p])
  }

  /** The text "_L" stands at i. */
  predicate MarkerText(s: string, i: nat) {
    i + 2 <= |s| && s[i..i + 2] == "_L"
  }

  lemma {:induction false} MarkerTextIs(s: string, i: nat)
    ensures MarkerText(s, i) <==> MarkerAt(s, i)
  {
    if i + 2 <= |s| {
      var t := s[i..i + 2];
      assert t[0] == s[i] && t[1] == s[i + 1];
      assert "_L"[0] == '_' && "_L"[1] == 'L';
    }
  }

  /** Cutting throws exactly if "_L" does not occur or stands at the beginning; otherwise it keeps what is before it. */
  lemma {:induction false} ExtractThrowsIff(s: string)
    ensures ExtractKeyPlacementGroupKey(s).Threw? <==> MarkerText(s, 0) || forall i: nat :: !MarkerText(s, i)
    ensures ExtractKeyPlacementGroupKey(s).Returned? ==>
              var g := ExtractKeyPlacementGroupKey(s).value;
              g <= s && MarkerText(s, |g|) && forall i | 0 <= i < |g| :: !MarkerText(s, i)
  {
    forall i: nat
      ensures MarkerText(s, i) <==> MarkerAt(s, i)
    {
      MarkerTextIs(s, i);
    }
    hide MarkerText, MarkerAt;
  }

  /** Every underscore is followed, inside the text, by something other than 'L'. */
  predicate MarkerFree(s: string) {
    forall i | 0 <= i < |s| && s[i] == '_' :: i + 1 < |s| && s[i + 1] != 'L'
  }

  lemma {:induction false} MarkerFreeAppend(a: string, b: string)
    requires MarkerFree(a) && MarkerFree(b)
    ensures MarkerFree(a + b)
  {
    forall i | 0 <= i < |a + b| && (a + b)[i] == '_'
      ensures i + 1 < |a + b| && (a + b)[i + 1] != 'L'
    {
      if i < |a| {
        assert a[i] == '_';
      } else {
        assert b[i - |a|] == '_';
      }
    }
  }

  lemma {:induction false} DecimalMarkerFree(n: nat)
    ensures MarkerFree(Decimal(n))
  {
    DecimalDigits(n);
  }

  lemma {:induction false} GroupKeyMarkerFree(rank: nat, tokens: nat, key: nat, shared: bool)
    ensures MarkerFree(GroupKey(rank, tokens, key, shared))
  {
    DecimalMarkerFree(rank);
    DecimalMarkerFree(tokens);
    DecimalMarkerFree(key);
    MarkerFreeAppend("_key", Decimal(key));
    MarkerFreeAppend(Decimal(tokens), "_key" + Decimal(key));
    var tail := Decimal(tokens) + ("_key" + Decimal(key));
    MarkerFreeAppend("tokens", tail);
    MarkerFreeAppend("_tokens", tail);
    MarkerFreeAppend(Decimal(rank), "_tokens" + tail);
    MarkerFreeAppend("rank", Decimal(rank) + ("_tokens" + tail));
  }

  /** The search for "_L" stops at the end of the group key, whatever numbers and cache name follow. */
  lemma {:induction false} ExtractsGroupKey(rank: nat, tokens: nat, key: nat, layer: nat, cacheName: string,
                                            shared: bool)
    ensures ExtractKeyPlacementGroupKey(BuildSlicePlacementKey(rank, tokens, key, layer, cacheName, shared))
            == Returned(GroupKey(rank, tokens, key, shared))
  {
    var g := GroupKey(rank, tokens, key, shared);
    var s := BuildSlicePlacementKey(rank, tokens, key, layer, cacheName, shared);
    GroupKeyMarkerFree(rank, tokens, key, shared);
    assert |g| > 0;
    assert s[|g|] == '_' && s[|g| + 1] == 'L';
    assert MarkerAt(s, |g|);
    forall i | 0 <= i < |g|
      ensures !MarkerAt(s, i)
    {
      assert s[i] == g[i];
      if g[i] == '_' {
        assert s[i + 1] == g[i + 1];
      }
    }
    assert s[..|g|] == g;
  }

  lemma {:induction false} TokensKeySplit(t1: nat, k1: nat, t2: nat, k2: nat)
    requires Decimal(t1) + ("_key" + Decimal(k1)) == Decimal(t2) + ("_key" + Decimal(k2))
    ensures t1 == t2 && k1 == k2
  {
    NumberSplits(t1, "_key" + Decimal(k1), t2, "_key" + Decimal(k2));
    assert Decimal(k1) == ("_key" + Decimal(k1))[4..] == ("_key" + Decimal(k2))[4..] == Decimal(k2);
    DecimalInjective(k1, k2);
  }

  /** Two slices fall in one group exactly when they agree on tokens, key and, unless shared, rank. */
  lemma {:induction false} GroupKeysEqualIff(r1: nat, t1: nat, k1: nat, r2: nat, t2: nat, k2: nat, shared: bool)
    ensures GroupKey(r1, t1, k1, shared) == GroupKey(r2, t2, k2, shared)
            <==> t1 == t2 && k1 == k2 && (shared || r1 == r2)
  {
    var x, y := Decimal(t1) + ("_key" + Decimal(k1)), Decimal(t2) + ("_key" + Decimal(k2));
    if GroupKey(r1, t1, k1, shared) == GroupKey(r2, t2, k2, shared) {
      if shared {
        assert x == ("tokens" + x)[6..] == ("tokens" + y)[6..] == y;
      } else {
        var u, v := Decimal(r1) + ("_tokens" + x), Decimal(r2) + ("_tokens" + y);
        assert u == ("rank" + u)[4..] == ("rank" + v)[4..] == v;
        NumberSplits(r1, "_tokens" + x, r2, "_tokens" + y);
        assert x == ("_tokens" + x)[7..] == ("_tokens" + y)[7..] == y;
      }
      TokensKeySplit(t1, k1, t2, k2);
    }
  }

  /** Full placement keys are equal exactly when all their parts are. */
  lemma {:induction false} SliceKeysEqualIff(r1: nat, t1: nat, k1: nat, l1: nat, c1: string,
                          r2: nat, t2: nat, k2: nat, l2: nat, c2: string, shared: bool)
    ensures BuildSlicePlacementKey(r1, t1, k1, l1, c1, shared) == BuildSlicePlacementKey(r2, t2, k2, l2, c2, shared)
            <==> t1 == t2 && k1 == k2 && l1 == l2 && c1 == c2 && (shared || r1 == r2)
  {
    var s1 := BuildSlicePlacementKey(r1, t1, k1, l1, c1, shared);
    var s2 := BuildSlicePlacementKey(r2, t2, k2, l2, c2, shared);
    var g1, g2 := GroupKey(r1, t1, k1, shared), GroupKey(r2, t2, k2, shared);
    GroupKeysEqualIff(r1, t1, k1, r2, t2, k2, shared);
    if s1 == s2 {
      ExtractsGroupKey(r1, t1, k1, l1, c1, shared);
      ExtractsGroupKey(r2, t2, k2, l2, c2, shared);
      assert g1 == g2;
      var x, y := LayerSuffix(l1, c1), LayerSuffix(l2, c2);
      assert x == s1[|g1|..] == s2[|g2|..] == y;
      assert Decimal(l1) + ("_" + c1) == x[2..] == y[2..] == Decimal(l2) + ("_" + c2);
      NumberSplits(l1, "_" + c1, l2, "_" + c2);
      assert c1 == ("_" + c1)[1..] == ("_" + c2)[1..] == c2;
    }
  }

  // ---------------------------------------------------------------- keys read back

  /** What a placement key says; a shared one names no rank. */
  datatype KeyParts = KeyParts(rank: Option<nat>, tokens: nat, key: nat, layer: nat, cacheName: string)

  /** The text after a fixed word. */
  function Expect(word: string, s: string): Option<string> {
    if word <= s then Some(s[|word|..]) else None
  }

  /** How many of the characters from the i-th on are digits without a gap. */
  function DigitsFrom(s: string, i: nat): (e: nat)
    requires i <= |s|
    ensures i <= e <= |s| && (forall k | i <= k < e :: IsDigit(s[k])) && (e < |s| ==> !IsDigit(s[e]))
    decreases |s| - i
  {
    if i < |s| && IsDigit(s[i]) then DigitsFrom(s, i + 1) else i
  }

  /** A decimal number and the text after it. */
  function ReadNumber(s: string): Option<(nat, string)> {
    var e := DigitsFrom(s, 0);
    if e == 0 then None else Some((Value(s[..e]), s[e..]))
  }

  /** A fixed word, a number, and the text after them. */
  function ReadField(word: string, s: string): Option<(nat, string)> {
    match Expect(word, s)
    case None => None
    case Some(rest) => ReadNumber(rest)
  }

  /** Tokens, key, layer and cache name, each behind its word. */
  function ReadTail(rank: Option<nat>, word: string, s: string): Option<KeyParts> {
    match ReadField(word, s)
    case None => None
    case Some((tokens, s1)) =>
      match ReadField("_key", s1)
      case None => None
      case Some((key, s2)) =>
        match ReadField("_L", s2)
        case None => None
        case Some((layer, s3)) =>
          match Expect("_", s3)
          case None => None
          case Some(name) => Some(KeyParts(rank, tokens, key, layer, name))
  }

  function ReadKey(s: string): Option<KeyParts> {
    match ReadField("rank", s)
    case None => ReadTail(None, "tokens", s)
    case Some((rank, rest)) => ReadTail(Some(rank), "_tokens", rest)
  }

  lemma {:induction false} NumberReads(n: nat, rest: string)
    requires !StartsWithDigit(rest)
    ensures ReadNumber(Decimal(n) + rest) == Some((n, rest))
  {
    DecimalValue(n);
    DecimalDigits(n);
    var d, s := Decimal(n), Decimal(n) + rest;
    hide Decimal;
    assert forall i | 0 <= i < |d| :: s[i] == d[i];
    assert rest != [] ==> s[|d|] == rest[0];
    assert DigitsFrom(s, 0) == |d|;
    assert s[..|d|] == d && s[|d|..] == rest;
  }

  lemma {:induction false} FieldReads(word: string, n: nat, rest: string)
    requires !StartsWithDigit(rest)
    ensures ReadField(word, word + (Decimal(n) + rest)) == Some((n, rest))
  {
    hide Decimal;
    NumberReads(n, rest);
    var s := Decimal(n) + rest;
    assert word <= word + s;
    assert (word + s)[|word|..] == s;
  }

  lemma {:induction false} TailReads(rank: Option<nat>, word: string, tokens: nat, key: nat, layer: nat, name: string)
    ensures ReadTail(rank, word, word + (Decimal(tokens) + ("_key" + (Decimal(key) + LayerSuffix(layer, name)))))
            == Some(KeyParts(rank, tokens, key, layer, name))
  {
    hide Decimal, ReadField;
    var s3 := "_" + name;
    var s2 := "_L" + (Decimal(layer) + s3);
    var s1 := "_key" + (Decimal(key) + s2);
    FieldReads("_L", layer, s3);
    FieldReads("_key", key, s2);
    FieldReads(word, tokens, s1);
    assert "_" <= s3;
    assert s3[1..] == name;
  }

  lemma {:induction false} KeyInParts(rank: nat, tokens: nat, key: nat, layer: nat, name: string, shared: bool)
    ensures BuildSlicePlacementKey(rank, tokens, key, layer, name, shared)
            == var tail := Decimal(tokens) + ("_key" + (Decimal(key) + LayerSuffix(layer, name)));
               if shared then "tokens" + tail else "rank" + (Decimal(rank) + ("_tokens" + tail))
  {
    hide Decimal, LayerSuffix;
    var t, k, r, suffix := Decimal(tokens), Decimal(key), Decimal(rank), LayerSuffix(layer, name);
    assert (t + ("_key" + k)) + suffix == t + ("_key" + (k + suffix));
    assert ("tokens" + (t + ("_key" + k))) + suffix == "tokens" + (t + ("_key" + (k + suffix)));
    assert ("rank" + (r + ("_tokens" + (t + ("_key" + k))))) + suffix
           == "rank" + (r + ("_tokens" + (t + ("_key" + (k + suffix)))));
  }

  /** Reading a placement key gives back the rank unless it is shared, the tokens, the key, the layer and the name. */
  lemma {:induction false} KeyReads(rank: nat, tokens: nat, key: nat, layer: nat, name: string, shared: bool)
    ensures ReadKey(BuildSlicePlacementKey(rank, tokens, key, layer, name, shared))
            == Some(KeyParts(if shared then None else Some(rank), tokens, key, layer, name))
  {
    hide Decimal, LayerSuffix, ReadTail, BuildSlicePlacementKey;
    KeyInParts(rank, tokens, key, layer, name, shared);
    var tail := Decimal(tokens) + ("_key" + (Decimal(key) + LayerSuffix(layer, name)));
    if shared {
      TailReads(None, "tokens", tokens, key, layer, name);
      assert ("tokens" + tail)[0] == 't' && "rank"[0] == 'r';
    } else {
      FieldReads("rank", rank, "_tokens" + tail);
      TailReads(Some(rank), "_tokens", tokens, key, layer, name);
    }
  }
}
