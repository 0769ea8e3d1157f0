/** The one order in which every transaction takes its stock rows: ids compared as strings. */
module LockOrder {
  import opened StockTables

  predicate Before(a: string, b: string) {
    b != "" && (a == "" || a[0] < b[0] || (a[0] == b[0] && Before(a[1..], b[1..])))
  }

  // Strictly before; decimal ids compare character by character, not as numbers.
  predicate Precedes(a: Id, b: Id) {
    Before(a.decimal, b.decimal)
  }

  lemma {:induction false} BeforeIsTransitive(a: string, b: string, c: string)
    requires Before(a, b) && Before(b, c)
    ensures Before(a, c)
  {
    if a != "" && a[0] == b[0] && b[0] == c[0] {
      BeforeIsTransitive(a[1..], b[1..], c[1..]);
    }
  }

  lemma {:induction false} BeforeIsIrreflexive(a: string)
    ensures !Before(a, a)
  {
    if a != "" {
      BeforeIsIrreflexive(a[1..]);
    }
  }

  lemma {:induction false} BeforeIsTotal(a: string, b: string)
    requires a != b
    ensures Before(a, b) || Before(b, a)
  {
    if a != "" && b != "" && a[0] == b[0] {
      assert a == [a[0]] + a[1..] && b == [b[0]] + b[1..];
      BeforeIsTotal(a[1..], b[1..]);
    }
  }

  lemma PrecedesIsTransitive(a: Id, b: Id, c: Id)
    requires Precedes(a, b) && Precedes(b, c)
    ensures Precedes(a, c) && a != c
  {
    BeforeIsTransitive(a.decimal, b.decimal, c.decimal);
    BeforeIsIrreflexive(c.decimal);
  }

  lemma PrecedesIsStrictAndTotal(a: Id, b: Id)
    ensures a != b <==> Precedes(a, b) || Precedes(b, a)
    ensures !(Precedes(a, b) && Precedes(b, a))
  {
    if a != b {
      BeforeIsTotal(a.decimal, b.decimal);
      if Precedes(a, b) && Precedes(b, a) {
        PrecedesIsTransitive(a, b, a);
      }
    } else {
      BeforeIsIrreflexive(a.decimal);
    }
  }

  // ---------------------------------------------------------------- sorting an order's lines

  ghost predicate InOrder(lines: seq<ReservationLine>) {
    forall i, j :: 0 <= i < j < |lines| ==> !Precedes(lines[j].variant, lines[i].variant)
  }

  // A stable sort: of two lines for one variant, the first stays first.
  function Inserted(l: ReservationLine, sorted: seq<ReservationLine>): (r: seq<ReservationLine>)
    ensures |r| == |sorted| + 1 && multiset(r) == multiset{l} + multiset(sorted)
  {
    if sorted == [] || !Precedes(sorted[0].variant, l.variant) then [l] + sorted
    else
      assert sorted == [sorted[0]] + sorted[1..];
      [sorted[0]] + Inserted(l, sorted[1..])
  }

  function Sorted(lines: seq<ReservationLine>): (r: seq<ReservationLine>)
    ensures |r| == |lines| && multiset(r) == multiset(lines)
  {
    if lines == [] then []
    else
      assert lines == [lines[0]] + lines[1..];
      Inserted(lines[0], Sorted(lines[1..]))
  }

  lemma {:induction false} InsertedInOrder(l: ReservationLine, sorted: seq<ReservationLine>)
    requires InOrder(sorted)
    ensures InOrder(Inserted(l, sorted))
  {
    if sorted != [] && Precedes(sorted[0].variant, l.variant) {
      InsertedInOrder(l, sorted[1..]);
      var tail := Inserted(l, sorted[1..]);
      forall j | 0 <= j < |tail| ensures !Precedes(tail[j].variant, sorted[0].variant) {
        assert tail[j] in multiset(tail);
        PrecedesIsStrictAndTotal(sorted[0].variant, l.variant);
      }
    } else if sorted != [] {
      forall j | 0 <= j < |sorted| ensures !Precedes(sorted[j].variant, l.variant) {
        if Precedes(sorted[j].variant, l.variant) {
          PrecedesIsStrictAndTotal(sorted[0].variant, l.variant);
          PrecedesIsStrictAndTotal(sorted[0].variant, sorted[j].variant);
          if l.variant != sorted[0].variant {
            PrecedesIsTransitive(sorted[j].variant, l.variant, sorted[0].variant);
          }
        }
      }
    }
  }

  lemma {:induction false} SortedInOrder(lines: seq<ReservationLine>)
    ensures InOrder(Sorted(lines))
  {
    if lines != [] {
      SortedInOrder(lines[1..]);
      InsertedInOrder(lines[0], Sorted(lines[1..]));
    }
  }

  lemma {:induction false} InsertedKeepsFirst(order: Id, l: ReservationLine, sorted: seq<ReservationLine>)
    ensures FirstQuantities(order, Inserted(l, sorted))
            == FirstQuantities(order, sorted)[Key(order, l.variant) := l.quantity]
  {
    if sorted != [] && Precedes(sorted[0].variant, l.variant) {
      InsertedKeepsFirst(order, l, sorted[1..]);
      PrecedesIsStrictAndTotal(sorted[0].variant, l.variant);
      assert Inserted(l, sorted)[1..] == Inserted(l, sorted[1..]);
    } else {
      assert ([l] + sorted)[1..] == sorted;
    }
  }

  // Sorting changes neither which variants are held nor how many of each.
  lemma {:induction false} SortedKeepsFirst(order: Id, lines: seq<ReservationLine>)
    ensures FirstQuantities(order, Sorted(lines)) == FirstQuantities(order, lines)
  {
    if lines != [] {
      SortedKeepsFirst(order, lines[1..]);
      InsertedKeepsFirst(order, lines[0], Sorted(lines[1..]));
    }
  }

  // One more line adds its variant, unless an earlier line named it.
  lemma {:induction false} FirstQuantitiesAppend(order: Id, lines: seq<ReservationLine>, l: ReservationLine)
    ensures var first, k := FirstQuantities(order, lines), Key(order, l.variant);
            FirstQuantities(order, lines + [l]) == if k in first then first else first[k := l.quantity]
  {
    if lines == [] {
      assert (lines + [l])[1..] == [];
    } else {
      assert (lines + [l])[1..] == lines[1..] + [l];
      FirstQuantitiesAppend(order, lines[1..], l);
    }
  }

  // Line i is the first to name its variant.
  predicate NamesFirst(lines: seq<ReservationLine>, i: nat)
    requires i < |lines|
  {
    forall j :: 0 <= j < i ==> lines[j].variant != lines[i].variant
  }

  // An order asks for exactly the variants its lines name, each in the quantity named first.
  lemma {:induction false} FirstNamedCounts(order: Id, lines: seq<ReservationLine>)
    ensures var need := FirstQuantities(order, lines);
            && (forall k :: k in need ==> k.order == order)
            && (forall i :: 0 <= i < |lines| ==> Key(order, lines[i].variant) in need)
            && (forall i :: 0 <= i < |lines| && NamesFirst(lines, i) ==>
                  need[Key(order, lines[i].variant)] == lines[i].quantity)
            && (forall k :: k in need ==> exists i :: 0 <= i < |lines| && lines[i].variant == k.variant)
  {
    if lines != [] {
      var rest := lines[1..];
      FirstNamedCounts(order, rest);
      forall i | 1 <= i < |lines|
        ensures Key(order, lines[i].variant) in FirstQuantities(order, lines)
        ensures NamesFirst(lines, i) ==>
                  FirstQuantities(order, lines)[Key(order, lines[i].variant)] == lines[i].quantity
      {
        assert rest[i - 1] == lines[i];
        if NamesFirst(lines, i) {
          assert lines[0].variant != lines[i].variant;
          assert forall j :: 0 <= j < i - 1 ==> rest[j] == lines[j + 1];
          assert NamesFirst(rest, i - 1);
        }
      }
      forall k | k in FirstQuantities(order, lines)
        ensures exists i :: 0 <= i < |lines| && lines[i].variant == k.variant
      {
        if k in FirstQuantities(order, rest) {
          var i :| 0 <= i < |rest| && rest[i].variant == k.variant;
          assert lines[i + 1].variant == k.variant;
        } else {
          assert lines[0].variant == k.variant;
        }
      }
    }
  }
}
