/**
 * The raw timeline records and what FireflyTransactions' constructor does with
 * them: a stable sort on createdDate, a three-condition filter, and the
 * FireflyTransaction constructor applied to every record kept.
 */
module Feed {
  import opened Wrappers
  import opened Classifier

  const Declined := "DECLINED"

  /**
   * One record of the feed. `vault` is None when the key is absent or null,
   * and Some(b) with b its truthiness otherwise.
   */
  datatype Record = Record(
    legId: string,
    tag: string,
    createdDate: int,
    description: string,
    merchant: Option<Merchant>,
    amount: int,
    category: Option<string>,
    vault: Option<bool>,
    state: string,
    currency: string)

  /** The three conditions a record must meet to enter the list. */
  predicate Keep(currency: Option<string>, r: Record) {
    && (currency.None? || currency.value == r.currency)
    && (r.vault.None? || r.amount < 0)
    && r.state != Declined
  }

  /** The order-preserving filter by Keep. */
  function Selected(currency: Option<string>, s: seq<Record>): (r: seq<Record>)
    ensures forall y :: y in r ==> y in s && Keep(currency, y)
  {
    if s == [] then []
    else if Keep(currency, s[0]) then [s[0]] + Selected(currency, s[1..])
    else Selected(currency, s[1..])
  }

  /** The records of `s` created at time `k`, in the order of `s`. */
  function WithCreated(k: int, s: seq<Record>): seq<Record> {
    if s == [] then []
    else if s[0].createdDate == k then [s[0]] + WithCreated(k, s[1..])
    else WithCreated(k, s[1..])
  }

  predicate Sorted(s: seq<Record>) {
    forall i, j :: 0 <= i < j < |s| ==> s[i].createdDate <= s[j].createdDate
  }

  /** Inserts `x` before the first record not created earlier than it. */
  function Insert(x: Record, s: seq<Record>): (r: seq<Record>)
    ensures multiset(r) == multiset(s) + multiset{x}
    ensures forall y :: y in r <==> y == x || y in s
  {
    if s == [] || x.createdDate <= s[0].createdDate then [x] + s
    else
      assert s == [s[0]] + s[1..];
      [s[0]] + Insert(x, s[1..])
  }

  /** sorted(records, key=createdDate): Python's sort, which is stable. */
  function SortByCreated(s: seq<Record>): (r: seq<Record>)
    ensures multiset(r) == multiset(s)
  {
    if s == [] then []
    else
      assert s == [s[0]] + s[1..];
      Insert(s[0], SortByCreated(s[1..]))
  }

  /** The records FireflyTransactions keeps, in the order it keeps them. */
  function Selection(feed: seq<Record>, currency: Option<string>): seq<Record> {
    Selected(currency, SortByCreated(feed))
  }

  /** The FireflyTransaction constructor applied to one record, with bool(vault) as is_vault. */
  function ToTxn(r: Record): Result<Txn, Error> {
    NewTxn(r.legId, r.tag, r.createdDate, r.description, r.merchant, r.amount, r.category,
           r.vault == Some(true), r.currency)
  }

  /** Classifies every record in order; the first record that raises decides the error. */
  function ClassifyAll(rs: seq<Record>): Result<seq<Txn>, Error> {
    if rs == [] then Ok([])
    else match ToTxn(rs[0])
      case Err(e) => Err(e)
      case Ok(t) =>
        match ClassifyAll(rs[1..])
        case Err(e) => Err(e)
        case Ok(ts) => Ok([t] + ts)
  }

  /** The list is built exactly when every record classifies, and then holds their transactions in order. */
  lemma {:induction false} ClassifyAllOk(rs: seq<Record>)
    ensures ClassifyAll(rs).Ok? <==> forall i :: 0 <= i < |rs| ==> ToTxn(rs[i]).Ok?
    ensures ClassifyAll(rs).Ok? ==>
      |ClassifyAll(rs).value| == |rs| && forall i :: 0 <= i < |rs| ==> ToTxn(rs[i]) == Ok(ClassifyAll(rs).value[i])
  {
    if rs != [] {
      ClassifyAllOk(rs[1..]);
      forall i | 0 < i < |rs| ensures rs[i] == rs[1..][i - 1] {}
    }
  }

  /** When the list is not built, the error is that of the first record that does not classify. */
  lemma {:induction false} ClassifyAllErr(rs: seq<Record>)
    requires ClassifyAll(rs).Err?
    ensures exists i :: 0 <= i < |rs| && ToTxn(rs[i]) == Err(ClassifyAll(rs).error)
                        && forall j :: 0 <= j < i ==> ToTxn(rs[j]).Ok?
  {
    if ToTxn(rs[0]).Ok? {
      assert ClassifyAll(rs[1..]) == Err(ClassifyAll(rs).error);
      ClassifyAllErr(rs[1..]);
      var i :| 0 <= i < |rs[1..]| && ToTxn(rs[1..][i]) == Err(ClassifyAll(rs[1..]).error)
               && forall j :: 0 <= j < i ==> ToTxn(rs[1..][j]).Ok?;
      assert rs[i + 1] == rs[1..][i];
      forall j | 0 < j <= i ensures ToTxn(rs[j]).Ok? {
        assert rs[j] == rs[1..][j - 1];
      }
      assert ToTxn(rs[i + 1]) == Err(ClassifyAll(rs).error);
    } else {
      assert ToTxn(rs[0]) == Err(ClassifyAll(rs).error);
    }
  }

  // ---------------------------------------------------------------------------
  // The list is sorted, is a permutation of the kept records and is stable.

  lemma {:induction false} InsertSorted(x: Record, s: seq<Record>)
    requires Sorted(s)
    ensures Sorted(Insert(x, s))
  {
    if s == [] || x.createdDate <= s[0].createdDate {
    } else {
      InsertSorted(x, s[1..]);
      var r := Insert(x, s[1..]);
      forall y | y in r ensures s[0].createdDate <= y.createdDate {
        if y != x {
          var j :| 0 <= j < |s[1..]| && s[1..][j] == y;
          assert s[j + 1] == y;
        }
      }
      assert forall j :: 0 <= j < |r| ==> r[j] in r;
    }
  }

  lemma {:induction false} SortByCreatedSorted(s: seq<Record>)
    ensures Sorted(SortByCreated(s))
  {
    if s != [] {
      SortByCreatedSorted(s[1..]);
      InsertSorted(s[0], SortByCreated(s[1..]));
    }
  }

  lemma {:induction false} WithCreatedConcat(k: int, a: seq<Record>, b: seq<Record>)
    ensures WithCreated(k, a + b) == WithCreated(k, a) + WithCreated(k, b)
  {
    if a == [] {
      assert a + b == b;
    } else {
      assert (a + b)[1..] == a[1..] + b;
      WithCreatedConcat(k, a[1..], b);
    }
  }

  lemma WithCreatedCons(k: int, y: Record, t: seq<Record>)
    ensures WithCreated(k, [y] + t) == (if y.createdDate == k then [y] else []) + WithCreated(k, t)
  {
    assert ([y] + t)[0] == y && ([y] + t)[1..] == t;
  }

  /** Insert puts `x` ahead of every record created at the same time. */
  lemma {:induction false} InsertStable(k: int, x: Record, s: seq<Record>)
    ensures WithCreated(k, Insert(x, s)) == WithCreated(k, [x] + s)
  {
    if s == [] || x.createdDate <= s[0].createdDate {
    } else {
      var hx := if x.createdDate == k then [x] else [];
      var h0 := if s[0].createdDate == k then [s[0]] else [];
      var w := WithCreated(k, s[1..]);
      assert h0 == [] || hx == [];
      assert Insert(x, s) == [s[0]] + Insert(x, s[1..]);
      assert s == [s[0]] + s[1..];
      calc {
        WithCreated(k, Insert(x, s));
        { WithCreatedCons(k, s[0], Insert(x, s[1..])); }
        h0 + WithCreated(k, Insert(x, s[1..]));
        { InsertStable(k, x, s[1..]); WithCreatedCons(k, x, s[1..]); }
        h0 + (hx + w);
        { assert h0 + (hx + w) == hx + (h0 + w); }
        hx + (h0 + w);
        { WithCreatedCons(k, s[0], s[1..]); }
        hx + WithCreated(k, s);
        { WithCreatedCons(k, x, s); }
        WithCreated(k, [x] + s);
      }
    }
  }

  lemma {:induction false} SortStable(k: int, s: seq<Record>)
    ensures WithCreated(k, SortByCreated(s)) == WithCreated(k, s)
  {
    if s != [] {
      SortStable(k, s[1..]);
      InsertStable(k, s[0], SortByCreated(s[1..]));
      WithCreatedConcat(k, [s[0]], SortByCreated(s[1..]));
      WithCreatedConcat(k, [s[0]], s[1..]);
      assert [s[0]] + s[1..] == s;
    }
  }

  lemma {:induction false} SelectedWithCreated(currency: Option<string>, k: int, s: seq<Record>)
    ensures WithCreated(k, Selected(currency, s)) == Selected(currency, WithCreated(k, s))
  {
    if s != [] {
      SelectedWithCreated(currency, k, s[1..]);
    }
  }

  lemma {:induction false} SelectedCount(currency: Option<string>, s: seq<Record>, y: Record)
    ensures multiset(Selected(currency, s))[y] == if Keep(currency, y) then multiset(s)[y] else 0
  {
    if s != [] {
      SelectedCount(currency, s[1..], y);
      assert s == [s[0]] + s[1..];
    }
  }

  lemma {:induction false} SelectedSorted(currency: Option<string>, s: seq<Record>)
    requires Sorted(s)
    ensures Sorted(Selected(currency, s))
  {
    if s != [] {
      SelectedSorted(currency, s[1..]);
      var r := Selected(currency, s[1..]);
      forall y | y in r ensures s[0].createdDate <= y.createdDate {
        var j :| 0 <= j < |s[1..]| && s[1..][j] == y;
        assert s[j + 1] == y;
      }
      assert forall j :: 0 <= j < |r| ==> r[j] in r;
    }
  }

  /**
   * The built list holds exactly the feed's records that meet the three
   * conditions, ascending by createdDate, records created at the same time
   * staying in feed order.
   */
  lemma SelectionOrder(feed: seq<Record>, currency: Option<string>)
    ensures Sorted(Selection(feed, currency))
    ensures multiset(Selection(feed, currency)) == multiset(Selected(currency, feed))
    ensures forall y :: y in Selection(feed, currency) <==> y in feed && Keep(currency, y)
    ensures forall k :: WithCreated(k, Selection(feed, currency)) == WithCreated(k, Selected(currency, feed))
  {
    var sorted := SortByCreated(feed);
    var sel := Selection(feed, currency);
    SortByCreatedSorted(feed);
    SelectedSorted(currency, sorted);
    forall y ensures multiset(sel)[y] == multiset(Selected(currency, feed))[y] {
      SelectedCount(currency, sorted, y);
      SelectedCount(currency, feed, y);
    }
    assert multiset(sel) == multiset(Selected(currency, feed));
    forall y ensures y in sel <==> y in feed && Keep(currency, y) {
      assert y in sel <==> multiset(sel)[y] > 0;
      SelectedCount(currency, feed, y);
      assert y in feed <==> multiset(feed)[y] > 0;
    }
    forall k ensures WithCreated(k, sel) == WithCreated(k, Selected(currency, feed)) {
      SelectedWithCreated(currency, k, sorted);
      SortStable(k, feed);
      SelectedWithCreated(currency, k, feed);
    }
  }

  // ---------------------------------------------------------------------------
  // Facts about appending one record, used by the constructor's loop.

  lemma {:induction false} SelectedConcat(currency: Option<string>, a: seq<Record>, b: seq<Record>)
    ensures Selected(currency, a + b) == Selected(currency, a) + Selected(currency, b)
  {
    if a == [] {
      assert a + b == b;
    } else {
      assert (a + b)[1..] == a[1..] + b;
      SelectedConcat(currency, a[1..], b);
    }
  }

  lemma {:induction false} ClassifyAllConcat(a: seq<Record>, b: seq<Record>)
    ensures ClassifyAll(a + b) ==
      match ClassifyAll(a)
      case Err(e) => Err(e)
      case Ok(ta) =>
        match ClassifyAll(b)
        case Err(e) => Err(e)
        case Ok(tb) => Ok(ta + tb)
  {
    if a == [] {
      assert a + b == b;
      match ClassifyAll(b)
      case Err(_) =>
      case Ok(tb) => assert [] + tb == tb;
    } else {
      assert (a + b)[0] == a[0];
      assert (a + b)[1..] == a[1..] + b;
      ClassifyAllConcat(a[1..], b);
      match ToTxn(a[0])
      case Err(_) =>
      case Ok(t) =>
        match ClassifyAll(a[1..])
        case Err(_) =>
        case Ok(ta) =>
          match ClassifyAll(b)
          case Err(_) =>
          case Ok(tb) => assert [t] + (ta + tb) == ([t] + ta) + tb;
    }
  }

  // One step of the constructor's loop: the record at `i` is skipped,
  // appended, or raises for the whole list.

  lemma BuildSkip(currency: Option<string>, sorted: seq<Record>, i: nat)
    requires i < |sorted| && !Keep(currency, sorted[i])
    ensures Selected(currency, sorted[..i + 1]) == Selected(currency, sorted[..i])
  {
    assert sorted[..i + 1] == sorted[..i] + [sorted[i]];
    SelectedConcat(currency, sorted[..i], [sorted[i]]);
    assert [sorted[i]][1..] == [];
  }

  lemma BuildAppend(currency: Option<string>, sorted: seq<Record>, i: nat, list: seq<Txn>)
    requires i < |sorted| && Keep(currency, sorted[i]) && ToTxn(sorted[i]).Ok?
    requires ClassifyAll(Selected(currency, sorted[..i])) == Ok(list)
    ensures ClassifyAll(Selected(currency, sorted[..i + 1])) == Ok(list + [ToTxn(sorted[i]).value])
  {
    var rec := sorted[i];
    assert sorted[..i + 1] == sorted[..i] + [rec];
    SelectedConcat(currency, sorted[..i], [rec]);
    assert [rec][1..] == [];
    assert Selected(currency, [rec]) == [rec];
    ClassifyAllConcat(Selected(currency, sorted[..i]), [rec]);
    var t := ToTxn(rec).value;
    assert [rec][0] == rec && [rec][1..] == [] && [t] + [] == [t];
    assert ClassifyAll([rec]) == Ok([t]);
  }

  lemma BuildRaise(currency: Option<string>, sorted: seq<Record>, i: nat, list: seq<Txn>)
    requires i < |sorted| && Keep(currency, sorted[i]) && ToTxn(sorted[i]).Err?
    requires ClassifyAll(Selected(currency, sorted[..i])) == Ok(list)
    ensures ClassifyAll(Selected(currency, sorted)) == Err(ToTxn(sorted[i]).error)
  {
    var rec := sorted[i];
    assert sorted == sorted[..i] + ([rec] + sorted[i + 1..]);
    SelectedConcat(currency, sorted[..i], [rec] + sorted[i + 1..]);
    ClassifyAllConcat(Selected(currency, sorted[..i]), Selected(currency, [rec] + sorted[i + 1..]));
  }
}
