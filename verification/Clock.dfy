/** Times of day as the feed sends them: six digits, compared as strings. */
module Clock {
  import opened Numbers

  predicate IsDigit(c: char) { '0' <= c <= '9' }

  predicate Digits(t: string) { forall i :: 0 <= i < |t| ==> IsDigit(t[i]) }

  function Digit(c: char): (d: nat)
    requires IsDigit(c)
    ensures d <= 9
  {
    c as int - '0' as int
  }

  /** The number the two leading digits stand for. */
  function Two(t: string): nat
    requires |t| >= 2 && Digits(t)
  {
    10 * Digit(t[0]) + Digit(t[1])
  }

  /** The order of the source language on strings. */
  predicate Before(a: string, b: string) {
    if |b| == 0 then false
    else if |a| == 0 then true
    else a[0] < b[0] || (a[0] == b[0] && Before(a[1..], b[1..]))
  }

  /** A time of day: its text, the minute of the day and the second in it. */
  datatype Stamp = Stamp(text: string, minute: nat, second: nat)

  predicate Earlier(a: Stamp, b: Stamp) { a.minute < b.minute || (a.minute == b.minute && a.second < b.second) }

  /** Reads six digits; other texts and times no clock shows give None. */
  function ReadTime(t: string): Option<Stamp> {
    if |t| != 6 || !Digits(t) then None
    else
      var hour, minute, second := Two(t), Two(t[2..]), Two(t[4..]);
      if hour > 23 || minute > 59 || second > 59 then None
      else Some(Stamp(t, hour * 60 + minute, second))
  }

  /** The value of the two characters at `i`, if they are digits. */
  function TwoAt(t: string, i: nat): int
    requires i + 1 < |t|
  {
    (t[i] as int - 48) * 10 + (t[i + 1] as int - 48)
  }

  /** Exactly which texts are times: six characters from '0' to '9' that show an hour
      below 24 and minutes and seconds below 60; and which time each is. */
  lemma ReadTimeIff(t: string)
    ensures ReadTime(t).Some? <==>
      |t| == 6 && (forall i :: 0 <= i < 6 ==> 48 <= t[i] as int <= 57)
      && TwoAt(t, 0) < 24 && TwoAt(t, 2) < 60 && TwoAt(t, 4) < 60
    ensures ReadTime(t).Some? ==> ReadTime(t).value == Stamp(t, TwoAt(t, 0) * 60 + TwoAt(t, 2), TwoAt(t, 4))
  {
  }

  /** `a` is before `b` where they first differ, or ends there. */
  ghost predicate FirstDiffers(a: string, b: string, k: nat) {
    k <= |a| && k < |b| && a[..k] == b[..k] && (k == |a| || a[k] < b[k])
  }

  lemma LargerFirst(a: string, b: string, k: nat)
    requires |a| > 0 && |b| > 0 && a[0] > b[0]
    ensures !FirstDiffers(a, b, k)
  {
    if 0 < k <= |a| && k < |b| {
      assert a[..k][0] != b[..k][0];
    }
  }

  /** The comparison of the source language is by the first difference. */
  lemma {:induction false} BeforeIff(a: string, b: string)
    ensures Before(a, b) <==> exists k :: FirstDiffers(a, b, k)
  {
    if |b| == 0 {
    } else if |a| == 0 {
      assert FirstDiffers(a, b, 0);
    } else {
      BeforeIff(a[1..], b[1..]);
      if a[0] < b[0] {
        assert FirstDiffers(a, b, 0);
      } else if a[0] == b[0] {
        if k: nat :| FirstDiffers(a[1..], b[1..], k) {
          assert a[..k + 1] == [a[0]] + a[1..][..k] && b[..k + 1] == [b[0]] + b[1..][..k];
          assert FirstDiffers(a, b, k + 1);
        }
        if k: nat :| FirstDiffers(a, b, k) {
          assert k > 0 && a[1..][..k - 1] == a[..k][1..] && b[1..][..k - 1] == b[..k][1..];
          assert FirstDiffers(a[1..], b[1..], k - 1);
        }
      } else {
        forall k: nat ensures !FirstDiffers(a, b, k) {
          LargerFirst(a, b, k);
        }
      }
    }
  }

  lemma BeforeByPairs(a: string, b: string)
    requires |a| == |b| >= 2 && Digits(a) && Digits(b)
    ensures Before(a, b) <==> Two(a) < Two(b) || (Two(a) == Two(b) && Before(a[2..], b[2..]))
  {
    assert a[1..][1..] == a[2..] && b[1..][1..] == b[2..];
    assert Before(a[1..], b[1..]) <==> a[1] < b[1] || (a[1] == b[1] && Before(a[2..], b[2..]));
  }

  /** Comparing the texts of two readable times compares the times. */
  lemma TextOrderIsTimeOrder(a: string, b: string)
    requires ReadTime(a).Some? && ReadTime(b).Some?
    ensures Before(a, b) <==> Earlier(ReadTime(a).value, ReadTime(b).value)
  {
    BeforeByPairs(a, b);
    BeforeByPairs(a[2..], b[2..]);
    assert a[2..][2..] == a[4..] && b[2..][2..] == b[4..];
    BeforeByPairs(a[4..], b[4..]);
    assert a[4..][2..] == [] && b[4..][2..] == [];
  }
}
