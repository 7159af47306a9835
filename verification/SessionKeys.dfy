/** What the Verifier's session keys identify: seven fields joined with bars. */
module SessionKeys {
  import opened Protocol
  import opened Text
  import opened Policy

  predicate Plain(s: string) {
    '|' !in s
  }

  ghost predicate PlainFields(parts: seq<string>) {
    forall i :: 0 <= i < |parts| ==> Plain(parts[i])
  }

  lemma CutAtBar(x: string, y: string, s: string, t: string)
    requires Plain(x) && Plain(y) && x + "|" + s == y + "|" + t
    ensures x == y && s == t
  {
    var whole := x + "|" + s;
    assert whole == y + "|" + t;
    assert whole[|x|] == '|' && whole[|y|] == '|';
    assert whole[..|x|] == x && whole[..|y|] == y;
    assert whole[|x| + 1..] == s && whole[|y| + 1..] == t;
  }

  lemma {:induction false} JoinInjective(a: seq<string>, b: seq<string>)
    requires |a| == |b| && PlainFields(a) && PlainFields(b) && Join(a) == Join(b)
    ensures a == b
  {
    if |a| > 1 {
      CutAtBar(a[0], b[0], Join(a[1..]), Join(b[1..]));
      JoinInjective(a[1..], b[1..]);
      assert a == [a[0]] + a[1..] && b == [b[0]] + b[1..];
    }
  }

  lemma {:induction false} DecimalInjective(m: nat, n: nat)
    requires Decimal(m) == Decimal(n)
    ensures m == n
  {
    assert Decimal(m)[|Decimal(m)| - 1] == Digit(m % 10) && Decimal(n)[|Decimal(n)| - 1] == Digit(n % 10);
    if m >= 10 && n >= 10 {
      assert Decimal(m)[..|Decimal(m)| - 1] == Decimal(m / 10);
      assert Decimal(n)[..|Decimal(n)| - 1] == Decimal(n / 10);
      DecimalInjective(m / 10, n / 10);
    } else {
      DecimalLength(m);
      DecimalLength(n);
    }
  }

  lemma DecimalLength(n: nat)
    ensures |Decimal(n)| > 0 && (|Decimal(n)| == 1 <==> n < 10)
  {
  }

  lemma {:induction false} DecimalPlain(n: nat)
    ensures Plain(Decimal(n))
  {
    if n >= 10 {
      DecimalPlain(n / 10);
    }
  }

  /** No field of the event contains a bar. */
  ghost predicate PlainEvent(e: Event) {
    PlainFields(KeyFields(e))
  }

  // ---------- a plain event's key identifies it ----------

  function Bars(s: string): nat {
    if s == "" then 0 else (if s[0] == '|' then 1 else 0) + Bars(s[1..])
  }

  function AllBars(parts: seq<string>): nat {
    if parts == [] then 0 else Bars(parts[0]) + AllBars(parts[1..])
  }

  lemma {:induction false} BarsConcat(s: string, t: string)
    ensures Bars(s + t) == Bars(s) + Bars(t)
  {
    if s == "" {
      assert s + t == t;
    } else {
      BarsConcat(s[1..], t);
      assert (s + t)[1..] == s[1..] + t;
    }
  }

  lemma {:induction false} PlainHasNoBars(s: string)
    ensures Plain(s) <==> Bars(s) == 0
  {
    if s != "" {
      PlainHasNoBars(s[1..]);
      assert s == [s[0]] + s[1..];
    }
  }

  lemma {:induction false} PlainFieldsHaveNoBars(parts: seq<string>)
    ensures PlainFields(parts) <==> AllBars(parts) == 0
  {
    if parts != [] {
      PlainHasNoBars(parts[0]);
      PlainFieldsHaveNoBars(parts[1..]);
      assert parts == [parts[0]] + parts[1..];
    }
  }

  /** Joining adds a bar between any two parts and no other. */
  lemma {:induction false} JoinBars(parts: seq<string>)
    requires parts != []
    ensures Bars(Join(parts)) == AllBars(parts) + |parts| - 1
  {
    if |parts| > 1 {
      var rest := Join(parts[1..]);
      JoinBars(parts[1..]);
      BarsConcat(parts[0] + "|", rest);
      BarsConcat(parts[0], "|");
    }
  }

  /** One plain side is enough: as many bars, so plain as well. */
  lemma PlainPartsIdentify(a: seq<string>, b: seq<string>)
    requires PlainFields(a) && |a| == |b| > 0 && Join(a) == Join(b)
    ensures a == b
  {
    hide Join, Plain;
    JoinBars(a);
    JoinBars(b);
    PlainFieldsHaveNoBars(a);
    PlainFieldsHaveNoBars(b);
    JoinInjective(a, b);
  }

  // ---------- any other event shares its key ----------

  lemma {:induction false} JoinMiddle(pre: seq<string>, u: string, v: string, post: seq<string>)
    ensures Join(pre + [u, v] + post) == Join(pre + [u + "|" + v] + post)
  {
    if pre != [] {
      JoinMiddle(pre[1..], u, v, post);
      assert (pre + [u, v] + post)[1..] == pre[1..] + [u, v] + post;
      assert (pre + [u + "|" + v] + post)[1..] == pre[1..] + [u + "|" + v] + post;
    } else if post != [] {
      assert ([u, v] + post)[1..] == [v] + post && ([v] + post)[1..] == post;
      assert ([u + "|" + v] + post)[1..] == post;
      assert pre + [u, v] + post == [u, v] + post && pre + [u + "|" + v] + post == [u + "|" + v] + post;
    } else {
      assert pre + [u, v] + post == [u, v] && [u, v][1..] == [v];
      assert pre + [u + "|" + v] + post == [u + "|" + v];
    }
  }

  /** Moving what is on one side of a bar to the neighbouring part changes the parts but not what they join to. */
  lemma ShiftKeepsJoin(parts: seq<string>, i: nat, u: string, v: string)
    requires i + 1 < |parts| && u + "|" + v == parts[i] + "|" + parts[i + 1]
    ensures Join(parts[i := u][i + 1 := v]) == Join(parts)
  {
    var pre, post := parts[..i], parts[i + 2..];
    JoinMiddle(pre, u, v, post);
    JoinMiddle(pre, parts[i], parts[i + 1], post);
    assert parts == pre + [parts[i], parts[i + 1]] + post;
    assert parts[i := u][i + 1 := v] == pre + [u, v] + post;
  }

  lemma BarSplits(s: string) returns (x: string, y: string)
    requires !Plain(s)
    ensures s == x + "|" + y
  {
    var n :| 0 <= n < |s| && s[n] == '|';
    x, y := s[..n], s[n + 1..];
  }

  /** The event with other key fields; the counter stays. */
  function WithFields(e: Event, parts: seq<string>): Event
    requires |parts| == 7
  {
    e.(clientPubKey := parts[0], serviceID := parts[1], clientOuterIP := parts[2], clientInnerIP := parts[3],
       clientInSPI := parts[4], pepInSPI := parts[5])
  }

  lemma FieldsRead(e: Event, parts: seq<string>)
    requires |parts| == 7 && parts[6] == Decimal(e.reqID)
    ensures KeyFields(WithFields(e, parts)) == parts
  {
    hide Decimal;
  }

  lemma BarredKeyCollides(e: Event) returns (f: Event)
    requires !PlainEvent(e)
    ensures SessionKey(f) == SessionKey(e) && KeyFields(f) != KeyFields(e)
  {
    hide Join, Decimal, Plain;
    var parts := KeyFields(e);
    DecimalPlain(e.reqID);
    var i :| 0 <= i < |parts| && !Plain(parts[i]);
    var x, y := BarSplits(parts[i]);
    var j, u, v := 0, x, y + "|" + parts[1];
    if i == 0 {
      assert u + "|" + v == parts[0] + "|" + parts[1];
    } else {
      j, u, v := i - 1, parts[i - 1] + "|" + x, y;
      assert u + "|" + v == parts[i - 1] + "|" + parts[i];
    }
    hide KeyFields, WithFields;
    ShiftKeepsJoin(parts, j, u, v);
    f := WithFields(e, parts[j := u][j + 1 := v]);
    FieldsRead(e, parts[j := u][j + 1 := v]);
    assert KeyFields(f)[j] == u && |u| != |parts[j]|;
  }

  lemma PlainKeyIdentifies(e: Event, f: Event)
    requires PlainEvent(e) && SessionKey(e) == SessionKey(f)
    ensures KeyFields(f) == KeyFields(e)
  {
    hide Join, Decimal, Plain;
    PlainPartsIdentify(KeyFields(e), KeyFields(f));
  }

  /** A key stands for one session, against events of any form, exactly if none of its fields contains a bar. */
  lemma SessionKeyIdentifies(e: Event)
    ensures (forall f :: SessionKey(f) == SessionKey(e) ==> KeyFields(f) == KeyFields(e)) <==> PlainEvent(e)
  {
    hide SessionKey, KeyFields, PlainEvent;
    if PlainEvent(e) {
      forall f | SessionKey(f) == SessionKey(e) ensures KeyFields(f) == KeyFields(e) {
        PlainKeyIdentifies(e, f);
      }
    } else {
      var f := BarredKeyCollides(e);
    }
  }

  // ---------- among complete events ----------

  /** Where part i starts and ends in the joined text. */
  function StartOf(parts: seq<string>, i: nat): nat
    requires i < |parts|
  {
    if i == 0 then 0 else |parts[0]| + 1 + StartOf(parts[1..], i - 1)
  }

  function EndOf(parts: seq<string>, i: nat): nat
    requires i < |parts|
  {
    StartOf(parts, i) + |parts[i]|
  }

  lemma {:induction false} NextStart(parts: seq<string>, i: nat)
    requires i + 1 < |parts|
    ensures StartOf(parts, i + 1) == EndOf(parts, i) + 1
  {
    if i > 0 {
      NextStart(parts[1..], i - 1);
    }
  }

  lemma {:induction false} PartInJoin(parts: seq<string>, i: nat)
    requires i < |parts|
    ensures var whole, end := Join(parts), EndOf(parts, i);
      && end <= |whole| && whole[StartOf(parts, i)..end] == parts[i]
      && if i + 1 < |parts| then end < |whole| && whole[end] == '|' else end == |whole|
    decreases i
  {
    var whole := Join(parts);
    if |parts| == 1 {
      assert whole == parts[0];
    } else {
      var rest := Join(parts[1..]);
      assert whole == parts[0] + "|" + rest;
      if i == 0 {
        assert whole[..|parts[0]|] == parts[0];
      } else {
        PartInJoin(parts[1..], i - 1);
        var start, end := StartOf(parts[1..], i - 1), EndOf(parts[1..], i - 1);
        assert whole[|parts[0]| + 1..] == rest;
        assert whole[|parts[0]| + 1 + start..|parts[0]| + 1 + end] == rest[start..end];
      }
    }
  }

  /** A bar with something before it, and one with something after it. */
  predicate BarAfter(s: string) {
    exists n :: 0 < n < |s| && s[n] == '|'
  }

  predicate BarBefore(s: string) {
    exists n :: 0 <= n < |s| - 1 && s[n] == '|'
  }

  ghost predicate NonEmpty(parts: seq<string>) {
    forall i :: 0 <= i < |parts| ==> parts[i] != ""
  }

  /** A bar of the whole text that falls into part i is a bar of part i. */
  lemma BarInPart(parts: seq<string>, i: nat, at: nat)
    requires i < |parts| && StartOf(parts, i) <= at < EndOf(parts, i) && at < |Join(parts)| && Join(parts)[at] == '|'
    ensures parts[i][at - StartOf(parts, i)] == '|'
  {
    PartInJoin(parts, i);
    assert Join(parts)[StartOf(parts, i)..EndOf(parts, i)][at - StartOf(parts, i)] == Join(parts)[at];
  }

  /** Cutting at the first bar there is, one cuts nowhere later than anyone else. */
  lemma {:induction false} EndsEarliest(a: seq<string>, b: seq<string>, i: nat)
    requires |a| == |b| && Join(a) == Join(b) && i + 1 < |a| && NonEmpty(b)
    requires forall j :: 0 <= j <= i ==> !BarAfter(a[j])
    ensures EndOf(a, i) <= EndOf(b, i)
  {
    hide Join, StartOf;
    StartsAtZero(a);
    StartsAtZero(b);
    if i > 0 {
      EndsEarliest(a, b, i - 1);
      NextStart(a, i - 1);
      NextStart(b, i - 1);
    }
    PartInJoin(b, i);
    PartInJoin(a, i);
    if EndOf(b, i) < EndOf(a, i) {
      BarInPart(a, i, EndOf(b, i));
    }
  }

  lemma StartsAtZero(parts: seq<string>)
    requires parts != []
    ensures StartOf(parts, 0) == 0
  {
  }

  /** Cutting at the last bar there is, nowhere earlier. */
  lemma {:induction false} EndsLatest(a: seq<string>, b: seq<string>, i: nat)
    requires |a| == |b| && Join(a) == Join(b) && i + 1 < |a| && NonEmpty(b)
    requires forall j :: i < j < |a| ==> !BarBefore(a[j])
    ensures EndOf(b, i) <= EndOf(a, i)
    decreases |a| - i
  {
    hide Join, StartOf;
    NextStart(a, i);
    NextStart(b, i);
    PartInJoin(b, i);
    PartInJoin(a, i + 1);
    PartInJoin(b, i + 1);
    if i + 2 < |a| {
      EndsLatest(a, b, i + 1);
    }
    if EndOf(b, i) > EndOf(a, i) {
      BarInPart(a, i + 1, EndOf(b, i));
    }
  }

  lemma SameCuts(a: seq<string>, b: seq<string>)
    requires |a| == |b| && Join(a) == Join(b)
    requires forall i :: 0 <= i < |a| - 1 ==> EndOf(a, i) == EndOf(b, i)
    ensures a == b
  {
    hide Join, StartOf;
    forall i | 0 <= i < |a| ensures a[i] == b[i] {
      PartInJoin(a, i);
      PartInJoin(b, i);
      StartsAtZero(a);
      StartsAtZero(b);
      if i > 0 {
        NextStart(a, i - 1);
        NextStart(b, i - 1);
        assert EndOf(a, i - 1) == EndOf(b, i - 1);
      }
    }
  }

  /** A bar that can be moved to the next field, or to the one before, leaving no field empty. */
  ghost predicate Movable(parts: seq<string>)
    requires |parts| == 7
  {
    (exists i :: 0 <= i < 5 && BarAfter(parts[i])) || (exists i :: 0 < i < 6 && BarBefore(parts[i]))
  }

  lemma ImmovableIdentify(a: seq<string>, b: seq<string>)
    requires |a| == |b| == 7 && Join(a) == Join(b) && NonEmpty(a) && NonEmpty(b) && Plain(a[6]) && Plain(b[6])
    requires !Movable(a)
    ensures a == b
  {
    hide Join, StartOf, EndOf;
    assert !BarBefore(a[6]) && !BarBefore(b[6]);
    forall i | 0 <= i < 6 ensures EndOf(a, i) == EndOf(b, i) {
      EndsLatest(a, b, i);
      if i < 5 {
        EndsEarliest(a, b, i);
      } else {
        EndsLatest(b, a, i);
      }
    }
    SameCuts(a, b);
  }

  /** Moving the bar. */
  lemma MovedBar(parts: seq<string>) returns (j: nat, u: string, v: string)
    requires |parts| == 7 && Movable(parts) && NonEmpty(parts)
    ensures j + 1 < 6 && u != "" && v != "" && |u| != |parts[j]|
    ensures u + "|" + v == parts[j] + "|" + parts[j + 1]
  {
    if i :| 0 <= i < 5 && BarAfter(parts[i]) {
      var n :| 0 < n < |parts[i]| && parts[i][n] == '|';
      j, u, v := i, parts[i][..n], parts[i][n + 1..] + "|" + parts[i + 1];
      assert parts[i] == u + "|" + parts[i][n + 1..];
    } else {
      var i :| 0 < i < 6 && BarBefore(parts[i]);
      var n :| 0 <= n < |parts[i]| - 1 && parts[i][n] == '|';
      j, u, v := i - 1, parts[i - 1] + "|" + parts[i][..n], parts[i][n + 1..];
      assert parts[i] == parts[i][..n] + "|" + v;
    }
  }

  lemma MovableCollides(e: Event) returns (f: Event)
    requires CompleteEvent(e) && Movable(KeyFields(e))
    ensures CompleteEvent(f) && SessionKey(f) == SessionKey(e) && KeyFields(f) != KeyFields(e)
  {
    hide Join, Decimal, Movable, CompleteEvent, WithFields;
    var parts := KeyFields(e);
    CompleteFields(e);
    var j, u, v := MovedBar(parts);
    var moved := parts[j := u][j + 1 := v];
    ShiftKeepsJoin(parts, j, u, v);
    f := WithFields(e, moved);
    FieldsRead(e, moved);
    SameCounter(e, moved);
    hide KeyFields;
    CompleteFields(f);
    assert KeyFields(f)[j] == u;
  }

  lemma SameCounter(e: Event, parts: seq<string>)
    requires |parts| == 7
    ensures WithFields(e, parts).reqID == e.reqID
  {
  }

  lemma CompleteFields(e: Event)
    ensures CompleteEvent(e) <==> NonEmpty(KeyFields(e)) && e.reqID != 0
  {
    hide Decimal;
    DecimalLength(e.reqID);
    var parts := KeyFields(e);
    assert NonEmpty(parts) <==>
      (parts[0] != "" && parts[1] != "" && parts[2] != "" && parts[3] != "" && parts[4] != "" && parts[5] != ""
       && parts[6] != "");
  }

  /**
   The Verifier looks up the keys of complete events only.  Among them an event shares its key with another exactly
   if one of its fields has a bar that can be moved.
   */
  lemma CompleteKeyCollides(e: Event)
    requires CompleteEvent(e)
    ensures (exists f :: CompleteEvent(f) && SessionKey(f) == SessionKey(e) && KeyFields(f) != KeyFields(e))
            <==> Movable(KeyFields(e))
  {
    hide Join, Decimal, Plain, Movable;
    if Movable(KeyFields(e)) {
      var f := MovableCollides(e);
    }
    forall f | CompleteEvent(f) && SessionKey(f) == SessionKey(e) && KeyFields(f) != KeyFields(e)
      ensures Movable(KeyFields(e))
    {
      CompleteFields(e);
      CompleteFields(f);
      DecimalPlain(e.reqID);
      DecimalPlain(f.reqID);
      if !Movable(KeyFields(e)) {
        ImmovableIdentify(KeyFields(e), KeyFields(f));
      }
    }
  }
}
