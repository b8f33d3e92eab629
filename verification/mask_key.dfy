/**
 * How the statistics command displays a key (`maskKey`): "Not set" for an
 * empty one, stars only for a short one, and otherwise the first and last
 * four characters around a run of stars of the same length as what it hides.
 */
module KeyMask {
  import opened Basics
  import opened Values

  const NotSet := "Not set"

  /** `maskKey($key)`. */
  function MaskKey(key: Option<string>): (r: string)
    ensures key.None? || EmptyString(key.value) ==> r == NotSet
    ensures key.Some? && !EmptyString(key.value) ==> |r| == |key.value|
    ensures key.Some? && !EmptyString(key.value) && |key.value| <= 8 ==> forall i :: 0 <= i < |r| ==> r[i] == '*'
    ensures key.Some? && !EmptyString(key.value) && |key.value| > 8 ==>
              && r[..4] == key.value[..4]
              && r[|r| - 4..] == key.value[|key.value| - 4..]
              && forall i :: 4 <= i < |r| - 4 ==> r[i] == '*'
  {
    if key.None? || EmptyString(key.value) then NotSet
    else
      var k := key.value;
      if |k| <= 8 then Repeat('*', |k|)
      else k[..4] + Repeat('*', |k| - 8) + k[|k| - 4..]
  }

  /** The number of characters of `s` that are not the mask character. */
  function Shown(s: string): nat
    decreases |s|
  {
    if |s| == 0 then 0 else (if s[0] != '*' then 1 else 0) + Shown(s[1..])
  }

  lemma {:induction false} ShownAtMostLength(s: string)
    ensures Shown(s) <= |s|
    decreases |s|
  {
    if |s| > 0 {
      ShownAtMostLength(s[1..]);
    }
  }

  lemma {:induction false} ShownOfConcat(a: string, b: string)
    ensures Shown(a + b) == Shown(a) + Shown(b)
    decreases |a|
  {
    if |a| > 0 {
      assert (a + b)[0] == a[0];
      assert (a + b)[1..] == a[1..] + b;
      ShownOfConcat(a[1..], b);
    } else {
      assert a + b == b;
    }
  }

  lemma {:induction false} ShownOfStars(n: nat)
    ensures Shown(Repeat('*', n)) == 0
    decreases n
  {
    if n > 0 {
      var s := Repeat('*', n);
      assert s[1..] == Repeat('*', n - 1) by {
        assert forall i :: 0 <= i < n - 1 ==> s[1..][i] == '*';
      }
      ShownOfStars(n - 1);
    }
  }

  /** A masked key never shows more than eight characters that are not stars,
      and every character it shows sits where it sat in the key. */
  lemma AtMostEightShown(key: string)
    requires !EmptyString(key)
    ensures Shown(MaskKey(Some(key))) <= 8
    ensures forall i :: 0 <= i < |key| && MaskKey(Some(key))[i] != '*' ==> MaskKey(Some(key))[i] == key[i]
  {
    var r := MaskKey(Some(key));
    if |key| <= 8 {
      assert r == Repeat('*', |key|);
      ShownOfStars(|key|);
    } else {
      var head := key[..4];
      var stars := Repeat('*', |key| - 8);
      var tail := key[|key| - 4..];
      assert r == head + stars + tail;
      ShownOfConcat(head + stars, tail);
      ShownOfConcat(head, stars);
      ShownOfStars(|key| - 8);
      ShownAtMostLength(head);
      ShownAtMostLength(tail);
    }
  }

  /** Masking is length-preserving and does not depend on the hidden middle:
      two long keys with the same first and last four characters look the same. */
  lemma MiddleIsHidden(key: string, other: string)
    requires |key| > 8 && |other| == |key|
    requires key[..4] == other[..4] && key[|key| - 4..] == other[|other| - 4..]
    ensures MaskKey(Some(key)) == MaskKey(Some(other))
  {
  }
}
