/** String helpers of the Go sources: strings.TrimSpace, strings.ToLower, membership and list comparison. */
module Text {

  /** The characters unicode.IsSpace accepts. */
  predicate IsSpace(c: char) {
    || c in {'\t', '\n', '\U{B}', '\U{C}', '\r', ' ', '\U{85}', '\U{A0}', '\U{1680}'}
    || '\U{2000}' <= c <= '\U{200A}'
    || c in {'\U{2028}', '\U{2029}', '\U{202F}', '\U{205F}', '\U{3000}'}
  }

  function TrimSpace(s: string): string
    decreases |s|
  {
    if |s| > 0 && IsSpace(s[0]) then TrimSpace(s[1..])
    else if |s| > 0 && IsSpace(s[|s| - 1]) then TrimSpace(s[..|s| - 1])
    else s
  }

  predicate Untrimmed(s: string) {
    s == "" || (!IsSpace(s[0]) && !IsSpace(s[|s| - 1]))
  }

  lemma TrimSpaceKeeps(s: string)
    requires Untrimmed(s)
    ensures TrimSpace(s) == s
  {
  }

  function LowerChar(c: char): char {
    if 'A' <= c <= 'Z' then 'a' + (c - 'A') else c
  }

  function ToLower(s: string): (r: string)
    ensures |r| == |s|
    ensures forall i :: 0 <= i < |s| ==> r[i] == LowerChar(s[i])
  {
    if s == "" then "" else [LowerChar(s[0])] + ToLower(s[1..])
  }

  /** Lower-casing neither makes nor removes surrounding white space. */
  lemma LowerUntrimmed(s: string)
    ensures Untrimmed(ToLower(s)) <==> Untrimmed(s)
  {
  }

  lemma LowerIdempotent(s: string)
    ensures ToLower(ToLower(s)) == ToLower(s)
  {
  }

  /** fmt's %d for an unsigned counter. */
  function Decimal(n: nat): string {
    if n < 10 then [Digit(n)] else Decimal(n / 10) + [Digit(n % 10)]
  }

  function Digit(d: nat): char
    requires d < 10
  {
    '0' + d as char
  }

  /** The number decimal digits stand for. */
  function ReadDecimal(s: string): int {
    if s == "" then 0 else 10 * ReadDecimal(s[..|s| - 1]) + (s[|s| - 1] as int - '0' as int)
  }

  lemma {:induction false} DecimalReads(n: nat)
    ensures ReadDecimal(Decimal(n)) == n && Decimal(n) != ""
    ensures forall i :: 0 <= i < |Decimal(n)| ==> '0' <= Decimal(n)[i] <= '9'
    ensures |Decimal(n)| > 1 ==> Decimal(n)[0] != '0'
  {
    if n >= 10 {
      DecimalReads(n / 10);
      assert Decimal(n)[..|Decimal(n)| - 1] == Decimal(n / 10);
    } else {
      assert Decimal(n)[..0] == "";
    }
  }

  /** What trimming leaves neither starts nor ends in white space, and what it takes off is nothing else. */
  lemma {:induction false} TrimSpaceExactly(s: string) returns (before: string, after: string)
    ensures s == before + TrimSpace(s) + after && Untrimmed(TrimSpace(s))
    ensures (forall c :: c in before ==> IsSpace(c)) && (forall c :: c in after ==> IsSpace(c))
    decreases |s|
  {
    hide IsSpace;
    if |s| > 0 && IsSpace(s[0]) {
      before, after := TrimSpaceExactly(s[1..]);
      before := [s[0]] + before;
    } else if |s| > 0 && IsSpace(s[|s| - 1]) {
      before, after := TrimSpaceExactly(s[..|s| - 1]);
      after := after + [s[|s| - 1]];
    } else {
      before, after := "", "";
    }
  }

  function Trimmed(values: seq<string>): (r: seq<string>)
    ensures |r| == |values|
    ensures forall i :: 0 <= i < |values| ==> r[i] == TrimSpace(values[i])
  {
    seq(|values|, i requires 0 <= i < |values| => TrimSpace(values[i]))
  }

  /** contains of the Verifier: members are trimmed, the wanted string is not. */
  predicate Contains(values: seq<string>, want: string) {
    want in Trimmed(values)
  }

  /** Two lists name the same strings equally often once surrounding white space is dropped. */
  predicate SameStrings(left: seq<string>, right: seq<string>) {
    multiset(Trimmed(left)) == multiset(Trimmed(right))
  }

  function Count(counts: map<string, int>, key: string): int {
    if key in counts then counts[key] else 0
  }

  /** The map holds, for every string, how many more copies `up` has than `down`. */
  ghost predicate Balances(counts: map<string, int>, up: multiset<string>, down: multiset<string>) {
    forall k :: Count(counts, k) + down[k] == up[k]
  }

  lemma CountUp(counts: map<string, int>, up: multiset<string>, key: string)
    requires Balances(counts, up, multiset{})
    ensures Balances(counts[key := Count(counts, key) + 1], up + multiset{key}, multiset{})
  {
    var after := counts[key := Count(counts, key) + 1];
    forall k ensures Count(after, k) == (up + multiset{key})[k] {
      assert Count(counts, k) == up[k];
    }
  }

  lemma CountDown(counts: map<string, int>, up: multiset<string>, down: multiset<string>, key: string)
    requires Balances(counts, up, down)
    ensures Balances(counts[key := Count(counts, key) - 1], up, down + multiset{key})
  {
    var after := counts[key := Count(counts, key) - 1];
    forall k ensures Count(after, k) + (down + multiset{key})[k] == up[k] {
      assert Count(counts, k) + down[k] == up[k];
    }
  }

  /**
   The count-map comparison shared by the Verifier and the PEP: one pass up, one pass down that stops at
   the first negative count, and a final scan of the map.
   */
  method SameStringsUnordered(left: seq<string>, right: seq<string>) returns (same: bool)
    ensures same <==> SameStrings(left, right)
  {
    if |left| != |right| {
      assert |multiset(Trimmed(left))| == |left| && |multiset(Trimmed(right))| == |right|;
      return false;
    }
    var counts := CountAll(left);
    var ok;
    ok, counts := Uncount(counts, right, multiset(Trimmed(left)));
    if !ok {
      return false;
    }
    same := AllZero(counts);
    BalancedWhenZero(counts, multiset(Trimmed(left)), multiset(Trimmed(right)));
  }

  /** The pass over the left list. */
  method CountAll(values: seq<string>) returns (counts: map<string, int>)
    ensures Balances(counts, multiset(Trimmed(values)), multiset{})
  {
    ghost var keys := Trimmed(values);
    counts := map[];
    for i := 0 to |values|
      invariant Balances(counts, multiset(keys[..i]), multiset{})
    {
      var key := TrimSpace(values[i]);
      CountUp(counts, multiset(keys[..i]), key);
      TakeNext(keys, i);
      counts := counts[key := Count(counts, key) + 1];
    }
    assert keys[..|values|] == keys;
  }

  /** The pass over the right list, with its early exit. */
  method Uncount(start: map<string, int>, values: seq<string>, ghost up: multiset<string>)
    returns (ok: bool, counts: map<string, int>)
    requires Balances(start, up, multiset{})
    ensures ok ==> Balances(counts, up, multiset(Trimmed(values)))
    ensures !ok ==> up != multiset(Trimmed(values))
  {
    hide Balances, TrimSpace;
    ghost var keys := Trimmed(values);
    counts := start;
    for i := 0 to |values|
      invariant Balances(counts, up, multiset(keys[..i]))
    {
      var key := TrimSpace(values[i]);
      CountDown(counts, up, multiset(keys[..i]), key);
      TakeNext(keys, i);
      counts := counts[key := Count(counts, key) - 1];
      if counts[key] < 0 {
        Overdrawn(counts, up, keys, i + 1, key);
        return false, counts;
      }
    }
    assert keys[..|values|] == keys;
    ok := true;
  }

  /** The final scan over the count map. */
  method AllZero(counts: map<string, int>) returns (zero: bool)
    ensures zero <==> forall k :: Count(counts, k) == 0
  {
    var unread := counts.Keys;
    while unread != {}
      invariant unread <= counts.Keys
      invariant forall k :: k in counts.Keys - unread ==> counts[k] == 0
      decreases unread
    {
      var key :| key in unread;
      if counts[key] != 0 {
        assert Count(counts, key) != 0;
        return false;
      }
      unread := unread - {key};
    }
    return true;
  }

  lemma TakeNext(keys: seq<string>, i: nat)
    requires i < |keys|
    ensures multiset(keys[..i + 1]) == multiset(keys[..i]) + multiset{keys[i]}
  {
    assert keys[..i + 1] == keys[..i] + [keys[i]];
  }

  /** A negative count after a prefix of the down pass can never be made good by the rest of it. */
  lemma Overdrawn(counts: map<string, int>, up: multiset<string>, downs: seq<string>, n: nat, key: string)
    requires n <= |downs|
    requires Balances(counts, up, multiset(downs[..n])) && Count(counts, key) < 0
    ensures up != multiset(downs)
  {
    assert downs == downs[..n] + downs[n..];
    assert Count(counts, key) + multiset(downs[..n])[key] == up[key];
  }

  lemma BalancedWhenZero(counts: map<string, int>, up: multiset<string>, down: multiset<string>)
    requires Balances(counts, up, down)
    ensures (forall k :: Count(counts, k) == 0) <==> up == down
  {
    if forall k :: Count(counts, k) == 0 {
      forall k ensures up[k] == down[k] {
        assert Count(counts, k) + down[k] == up[k];
      }
    }
  }
}
