/** Composite keys: non-empty parts, each with its length in front, joined so that they can be told apart. */
module CompositeKey {

  type Byte = b: int | 0 <= b < 256

  const COLON: Byte := 58
  const BAR: Byte := 124
  const ZERO: Byte := 48

  type Part = seq<Byte>

  predicate IsDigit(b: Byte) {
    ZERO <= b < ZERO + 10
  }

  function Decimal(n: nat): (r: seq<Byte>)
    ensures r != [] && forall i :: 0 <= i < |r| ==> IsDigit(r[i])
  {
    if n < 10 then [ZERO + n] else Decimal(n / 10) + [ZERO + n % 10]
  }

  function Segment(v: Part): seq<Byte> {
    Decimal(|v|) + [COLON] + v
  }

  function Joined(ps: seq<Part>): seq<Byte> {
    if ps == [] then []
    else if |ps| == 1 then Segment(ps[0])
    else Segment(ps[0]) + [BAR] + Joined(ps[1..])
  }

  function NonEmpty(parts: seq<Part>): (r: seq<Part>)
    ensures forall i :: 0 <= i < |r| ==> r[i] != []
  {
    if parts == [] then []
    else
      var rest := NonEmpty(parts[..|parts| - 1]);
      if parts[|parts| - 1] == [] then rest else rest + [parts[|parts| - 1]]
  }

  lemma {:induction false} JoinedSnoc(ps: seq<Part>, v: Part)
    ensures Joined(ps + [v]) == (if ps == [] then [] else Joined(ps) + [BAR]) + Segment(v)
  {
    if |ps| == 1 {
      assert (ps + [v])[1..] == [v];
    } else if |ps| > 1 {
      JoinedSnoc(ps[1..], v);
      assert (ps + [v])[1..] == ps[1..] + [v];
      assert Joined(ps + [v]) == Segment(ps[0]) + [BAR] + Joined(ps[1..] + [v]);
      Regroup(Segment(ps[0]) + [BAR], Joined(ps[1..]), [BAR], Segment(v));
    }
  }

  lemma Regroup(a: seq<Byte>, b: seq<Byte>, c: seq<Byte>, d: seq<Byte>)
    ensures a + ((b + c) + d) == ((a + b) + c) + d
  {
  }

  /** The encoder: empty parts are skipped, and a bar goes between the others. */
  method Encode(parts: seq<Part>) returns (key: seq<Byte>)
    ensures key == Joined(NonEmpty(parts))
  {
    key := [];
    var first := true;
    for i := 0 to |parts|
      invariant key == Joined(NonEmpty(parts[..i]))
      invariant first <==> NonEmpty(parts[..i]) == []
    {
      var v := parts[i];
      assert parts[..i + 1][..i] == parts[..i];
      if v != [] {
        JoinedSnoc(NonEmpty(parts[..i]), v);
        if !first {
          key := key + [BAR];
        }
        key := key + Segment(v);
        first := false;
      }
    }
    assert parts[..|parts|] == parts;
  }

  // ---- A decoder -------------------------------------------------------------------------------

  /** Reads the digits in front, and what follows them. */
  function ReadNumber(s: seq<Byte>, acc: nat): (r: (nat, seq<Byte>))
    ensures |r.1| <= |s|
  {
    if s == [] || !IsDigit(s[0]) then (acc, s) else ReadNumber(s[1..], acc * 10 + (s[0] - ZERO))
  }

  datatype Decoded = Malformed | Parts(parts: seq<Part>)

  function ReadParts(s: seq<Byte>): Decoded
    decreases |s|
  {
    var (n, r) := ReadNumber(s, 0);
    if r == [] || r[0] != COLON || n > |r| - 1 then Malformed
    else
      var v, rest := r[1..n + 1], r[n + 1..];
      if rest == [] then Parts([v])
      else if rest[0] != BAR then Malformed
      else
        match ReadParts(rest[1..])
        case Malformed => Malformed
        case Parts(ps) => Parts([v] + ps)
  }

  function Decode(key: seq<Byte>): Decoded {
    if key == [] then Parts([]) else ReadParts(key)
  }

  function Fold(ds: seq<Byte>, acc: nat): nat
    requires forall i :: 0 <= i < |ds| ==> IsDigit(ds[i])
  {
    if ds == [] then acc
    else
      assert IsDigit(ds[0]);
      Fold(ds[1..], acc * 10 + (ds[0] - ZERO))
  }

  lemma {:induction false} FoldSnoc(ds: seq<Byte>, d: Byte, acc: nat)
    requires IsDigit(d) && forall i :: 0 <= i < |ds| ==> IsDigit(ds[i])
    ensures Fold(ds + [d], acc) == Fold(ds, acc) * 10 + (d - ZERO)
  {
    if ds == [] {
      assert Fold([d], acc) == Fold([], acc * 10 + (d - ZERO));
    } else {
      assert (ds + [d])[1..] == ds[1..] + [d];
      FoldSnoc(ds[1..], d, acc * 10 + (ds[0] - ZERO));
    }
  }

  lemma {:induction false} FoldDecimal(n: nat)
    ensures Fold(Decimal(n), 0) == n
  {
    if n < 10 {
      assert Fold([ZERO + n], 0) == Fold([], n);
    } else {
      FoldDecimal(n / 10);
      FoldSnoc(Decimal(n / 10), ZERO + n % 10, 0);
    }
  }

  lemma {:induction false} ReadDigits(ds: seq<Byte>, rest: seq<Byte>, acc: nat)
    requires forall i :: 0 <= i < |ds| ==> IsDigit(ds[i])
    requires rest != [] && !IsDigit(rest[0])
    ensures ReadNumber(ds + rest, acc) == (Fold(ds, acc), rest)
  {
    if ds == [] {
      assert ds + rest == rest;
    } else {
      assert (ds + rest)[1..] == ds[1..] + rest;
      ReadDigits(ds[1..], rest, acc * 10 + (ds[0] - ZERO));
    }
  }

  lemma ReadSegment(v: Part, rest: seq<Byte>)
    ensures ReadNumber(Segment(v) + rest, 0) == (|v|, [COLON] + v + rest)
  {
    assert Segment(v) + rest == Decimal(|v|) + ([COLON] + v + rest);
    FoldDecimal(|v|);
    ReadDigits(Decimal(|v|), [COLON] + v + rest, 0);
  }

  lemma {:induction false} ReadJoined(ps: seq<Part>)
    requires ps != []
    ensures ReadParts(Joined(ps)) == Parts(ps)
    decreases |ps|
  {
    var v := ps[0];
    var rest := if |ps| == 1 then [] else [BAR] + Joined(ps[1..]);
    if |ps| > 1 {
      ReadJoined(ps[1..]);
      assert rest[1..] == Joined(ps[1..]);
    }
    assert Joined(ps) == Segment(v) + rest;
    ReadSegment(v, rest);
    Cut(v, rest);
    assert ps == [v] + ps[1..];
  }

  lemma Cut(v: Part, rest: seq<Byte>)
    ensures var r := [COLON] + v + rest;
      r[0] == COLON && |r| - 1 >= |v| && r[1..|v| + 1] == v && r[|v| + 1..] == rest
  {
  }

  /** The decoder recovers exactly the non-empty parts, whatever bytes they hold. */
  lemma RoundTrip(parts: seq<Part>)
    ensures Decode(Joined(NonEmpty(parts))) == Parts(NonEmpty(parts))
  {
    var ps := NonEmpty(parts);
    if ps != [] {
      ReadJoined(ps);
      assert Joined(ps) != [];
    }
  }

  // ---- What is kept, and how it is written ---------------------------------------------------------

  /** Skipping empty parts goes part by part: what is kept of a list is what is kept of its pieces. */
  lemma {:induction false} NonEmptyConcat(a: seq<Part>, b: seq<Part>)
    ensures NonEmpty(a + b) == NonEmpty(a) + NonEmpty(b)
    decreases |b|
  {
    if b == [] {
      assert a + b == a;
    } else {
      var n := |b| - 1;
      assert (a + b)[..|a| + n] == a + b[..n];
      NonEmptyConcat(a, b[..n]);
    }
  }

  lemma NonEmptySingle(v: Part)
    ensures NonEmpty([v]) == if v == [] then [] else [v]
  {
    assert [v][..0] == [];
  }

  lemma {:induction false} NonEmptyKeepsAll(a: seq<Part>)
    requires forall i :: 0 <= i < |a| ==> a[i] != []
    ensures NonEmpty(a) == a
  {
    if a != [] {
      NonEmptyKeepsAll(a[..|a| - 1]);
    }
  }

  /** Inserting or leaving out an empty part anywhere makes no difference to the key. */
  lemma EmptyPartsVanish(a: seq<Part>, b: seq<Part>)
    ensures Joined(NonEmpty(a + [[]] + b)) == Joined(NonEmpty(a + b))
  {
    NonEmptyConcat(a + [[]], b);
    NonEmptyConcat(a, [[]]);
    NonEmptyConcat(a, b);
    NonEmptySingle([]);
  }

  lemma {:induction false} JoinedConcat(a: seq<Part>, b: seq<Part>)
    requires a != [] && b != []
    ensures Joined(a + b) == Joined(a) + [BAR] + Joined(b)
    decreases |b|
  {
    var n := |b| - 1;
    if n == 0 {
      assert b == [b[0]];
      JoinedSnoc(a, b[0]);
    } else {
      JoinedConcat(a, b[..n]);
      JoinedSnoc(a + b[..n], b[n]);
      JoinedSnoc(b[..n], b[n]);
      assert a + b == (a + b[..n]) + [b[n]] && b == b[..n] + [b[n]];
      Regroup(Joined(a) + [BAR], Joined(b[..n]), [BAR], Segment(b[n]));
    }
  }

  /** The key of a list that splits into two with parts of their own is their keys with a bar between,
      and one part is written as its decimal length, a colon and its bytes. */
  lemma KeyGrows(a: seq<Part>, b: seq<Part>, v: Part)
    ensures NonEmpty(a) != [] && NonEmpty(b) != [] ==>
      Joined(NonEmpty(a + b)) == Joined(NonEmpty(a)) + [BAR] + Joined(NonEmpty(b))
    ensures v != [] ==> Joined(NonEmpty([v])) == Decimal(|v|) + [COLON] + v
  {
    NonEmptyConcat(a, b);
    if NonEmpty(a) != [] && NonEmpty(b) != [] {
      JoinedConcat(NonEmpty(a), NonEmpty(b));
    }
    NonEmptySingle(v);
  }

  /** Lengths are written in decimal, without a leading zero. */
  lemma {:induction false} DecimalValue(n: nat)
    ensures Fold(Decimal(n), 0) == n && (n > 0 ==> Decimal(n)[0] != ZERO)
  {
    FoldDecimal(n);
    if n >= 10 {
      DecimalValue(n / 10);
    }
  }

  /** Two lists of parts get the same key exactly when their non-empty parts are the same list; so lists
      without empty parts get the same key exactly when they are the same. */
  lemma NoCollisions(a: seq<Part>, b: seq<Part>)
    ensures Joined(NonEmpty(a)) == Joined(NonEmpty(b)) <==> NonEmpty(a) == NonEmpty(b)
    ensures (forall i :: 0 <= i < |a| ==> a[i] != []) && (forall i :: 0 <= i < |b| ==> b[i] != []) ==>
      (Joined(NonEmpty(a)) == Joined(NonEmpty(b)) <==> a == b)
  {
    RoundTrip(a);
    RoundTrip(b);
    if (forall i :: 0 <= i < |a| ==> a[i] != []) && (forall i :: 0 <= i < |b| ==> b[i] != []) {
      NonEmptyKeepsAll(a);
      NonEmptyKeepsAll(b);
    }
  }

  /** "tenant-42" and "customer-9" are prefixed with their true lengths, 9 and 10. */
  lemma LengthIsInBytes(a: Part, b: Part)
    requires |a| == 9 && |b| == 10
    ensures Joined([a, b]) == [57, 58] + a + [124, 49, 48, 58] + b
  {
    assert Decimal(9) == [57];
    assert Decimal(1) == [49];
    assert Decimal(10) == [49, 48];
    assert [a, b][1..] == [b];
  }
}
