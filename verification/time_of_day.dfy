/** A time of day as Python's `datetime.time` holds it: hour, minute, second
    and microsecond, compared the way Python compares them, field by field
    from the most significant one. The module also gives the equivalent
    numeric view (microseconds since midnight) and proves the two agree. */
module TimeOfDay {

  /** Microseconds in one day; every time of day lies in [0, MicrosPerDay). */
  const MicrosPerDay: int := 86_400_000_000

  type Hour = h: int | 0 <= h < 24
  type Minute = m: int | 0 <= m < 60
  type Second = s: int | 0 <= s < 60
  type Microsecond = u: int | 0 <= u < 1_000_000

  /** A naive `datetime.time`: its constructor rejects out-of-range fields,
      which the subset types express. */
  datatype Time = Time(hour: Hour, minute: Minute, second: Second, microsecond: Microsecond)

  /** The radix of each field of a `Time`, most significant first. */
  const Radices: seq<nat> := [24, 60, 60, 1_000_000]

  /** Every digit lies below its radix. */
  predicate InRange(ds: seq<int>, rs: seq<nat>) {
    |ds| == |rs| && forall i :: 0 <= i < |ds| ==> 0 <= ds[i] < rs[i]
  }

  /** The fields of `t` as the tuple Python compares. */
  function Fields(t: Time): (ds: seq<int>)
    ensures InRange(ds, Radices)
  {
    [t.hour, t.minute, t.second, t.microsecond]
  }

  /** Product of the radices: how many distinct digit sequences there are. */
  function Weight(rs: seq<nat>): nat {
    if |rs| == 0 then 1 else rs[0] * Weight(rs[1..])
  }

  /** The number a mixed-radix digit sequence denotes. */
  function Value(ds: seq<int>, rs: seq<nat>): int
    requires |ds| == |rs|
  {
    if |ds| == 0 then 0 else ds[0] * Weight(rs[1..]) + Value(ds[1..], rs[1..])
  }

  function Sign(x: int): int {
    if x < 0 then -1 else if x == 0 then 0 else 1
  }

  /** Python's three-way comparison of two tuples of the same length: the
      first position where they differ decides; equal tuples compare equal. */
  function Cmp(a: seq<int>, b: seq<int>): (c: int)
    requires |a| == |b|
    ensures -1 <= c <= 1
    ensures c == 0 <==> a == b
  {
    if |a| == 0 then 0
    else if a[0] < b[0] then -1
    else if a[0] > b[0] then 1
    else
      var c := Cmp(a[1..], b[1..]);
      assert a == [a[0]] + a[1..] && b == [b[0]] + b[1..];
      c
  }

  lemma InRangeTail(ds: seq<int>, rs: seq<nat>)
    requires InRange(ds, rs) && |ds| > 0
    ensures InRange(ds[1..], rs[1..])
  {
    forall i | 0 <= i < |ds| - 1
      ensures 0 <= ds[1..][i] < rs[1..][i]
    {
      assert ds[1..][i] == ds[i + 1] && rs[1..][i] == rs[i + 1];
    }
  }

  /** A digit sequence within its radices denotes a number in [0, Weight). */
  lemma {:induction false} ValueBound(ds: seq<int>, rs: seq<nat>)
    requires InRange(ds, rs)
    ensures 0 <= Value(ds, rs) < Weight(rs)
  {
    if |ds| > 0 {
      InRangeTail(ds, rs);
      ValueBound(ds[1..], rs[1..]);
      var w := Weight(rs[1..]);
      assert (ds[0] + 1) * w <= rs[0] * w by {
        assert ds[0] + 1 <= rs[0];
      }
    }
  }

  /** One more unit of the leading digit outweighs any tail. */
  lemma LeadingDigitDominates(x: int, y: int, w: nat, u: int, v: int)
    requires x < y && 0 <= u < w && 0 <= v
    ensures x * w + u < y * w + v
  {
    assert (x + 1) * w <= y * w by {
      assert y * w - (x + 1) * w == (y - x - 1) * w;
    }
  }

  /** Lexicographic comparison of in-range digit sequences agrees with the
      order of the numbers they denote. */
  lemma {:induction false} CmpIsValueOrder(a: seq<int>, b: seq<int>, rs: seq<nat>)
    requires InRange(a, rs) && InRange(b, rs)
    ensures Cmp(a, b) == Sign(Value(a, rs) - Value(b, rs))
  {
    if |a| > 0 {
      InRangeTail(a, rs);
      InRangeTail(b, rs);
      ValueBound(a[1..], rs[1..]);
      ValueBound(b[1..], rs[1..]);
      var w := Weight(rs[1..]);
      var u, v := Value(a[1..], rs[1..]), Value(b[1..], rs[1..]);
      assert Value(a, rs) == a[0] * w + u;
      assert Value(b, rs) == b[0] * w + v;
      if a[0] < b[0] {
        LeadingDigitDominates(a[0], b[0], w, u, v);
      } else if a[0] > b[0] {
        LeadingDigitDominates(b[0], a[0], w, v, u);
      } else {
        CmpIsValueOrder(a[1..], b[1..], rs[1..]);
      }
    }
  }

  /** Microseconds since midnight: the numeric reading of a time of day. */
  function ToMicros(t: Time): (n: int)
    ensures 0 <= n < MicrosPerDay
  {
    t.hour * 3_600_000_000 + t.minute * 60_000_000 + t.second * 1_000_000 + t.microsecond
  }

  /** The numeric reading is the mixed-radix value of the field tuple. */
  lemma ToMicrosIsValue(t: Time)
    ensures ToMicros(t) == Value(Fields(t), Radices)
  {
    var ds := Fields(t);
    assert Radices[1..] == [60, 60, 1_000_000];
    assert Radices[2..] == [60, 1_000_000];
    assert Radices[3..] == [1_000_000];
    assert Weight(Radices[3..]) == 1_000_000 by {
      assert Radices[3..][1..] == [];
    }
    assert Weight(Radices[2..]) == 60_000_000 by {
      assert Radices[2..][1..] == Radices[3..];
    }
    assert Weight(Radices[1..]) == 3_600_000_000 by {
      assert Radices[1..][1..] == Radices[2..];
    }
    assert Value(ds[3..], Radices[3..]) == t.microsecond;
    assert Value(ds[2..], Radices[2..]) == t.second * 1_000_000 + t.microsecond;
    assert Value(ds[1..], Radices[1..]) == t.minute * 60_000_000 + t.second * 1_000_000 + t.microsecond;
  }

  /** The time of day `n` microseconds after midnight. */
  function FromMicros(n: int): (t: Time)
    requires 0 <= n < MicrosPerDay
    ensures ToMicros(t) == n
  {
    var h, r := n / 3_600_000_000, n % 3_600_000_000;
    var m, r' := r / 60_000_000, r % 60_000_000;
    Time(h, m, r' / 1_000_000, r' % 1_000_000)
  }

  /** Reading a time as microseconds loses nothing. */
  lemma FromMicrosToMicros(t: Time)
    ensures FromMicros(ToMicros(t)) == t
  {
    var n := ToMicros(t);
    var r := t.minute * 60_000_000 + t.second * 1_000_000 + t.microsecond;
    var r' := t.second * 1_000_000 + t.microsecond;
    assert n / 3_600_000_000 == t.hour && n % 3_600_000_000 == r;
    assert r / 60_000_000 == t.minute && r % 60_000_000 == r';
    assert r' / 1_000_000 == t.second && r' % 1_000_000 == t.microsecond;
  }

  /** Python's `a < b`, `a <= b`, ... on `datetime.time` is the three-way
      comparison of the field tuples; it orders times as microseconds since
      midnight do. */
  function Compare(a: Time, b: Time): (c: int)
    ensures c == Sign(ToMicros(a) - ToMicros(b))
    ensures c == 0 <==> a == b
  {
    CmpIsValueOrder(Fields(a), Fields(b), Radices);
    ToMicrosIsValue(a);
    ToMicrosIsValue(b);
    FromMicrosToMicros(a);
    FromMicrosToMicros(b);
    Cmp(Fields(a), Fields(b))
  }

  /** `datetime.time()` of a local wall-clock instant, given as microseconds
      counted from some local midnight: the date part is dropped. */
  function TimeOf(local: int): (t: Time)
    ensures ToMicros(t) == local % MicrosPerDay
  {
    FromMicros(local % MicrosPerDay)
  }

  /** An offset within the reference day reads back as the time it encodes. */
  lemma TimeOfWithinDay(t: Time)
    ensures TimeOf(ToMicros(t)) == t
  {
    FromMicrosToMicros(t);
  }

  /** Instants a whole number of days apart have the same time of day. */
  lemma TimeOfIsDaily(local: int, days: int)
    ensures TimeOf(local + days * MicrosPerDay) == TimeOf(local)
  {
    var q, r := local / MicrosPerDay, local % MicrosPerDay;
    assert local + days * MicrosPerDay == (q + days) * MicrosPerDay + r;
    assert (local + days * MicrosPerDay) % MicrosPerDay == r;
  }
}
