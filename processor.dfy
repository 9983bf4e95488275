/**
 * The incremental processor (class FireflyTransactions): the list built from
 * the feed, and one pass over it that skips everything up to and including
 * the transaction named by the marker, pushes the rest in order, and then
 * writes the marker back.
 */
module Processor {
  import opened Wrappers
  import opened Classifier
  import opened Feed
  import opened MarkerStore

  /** Some transaction of `l` carries leg id `m`. */
  predicate Found(l: seq<Txn>, m: string) {
    exists i :: 0 <= i < |l| && l[i].legId == m
  }

  /** The transactions strictly after the first one whose leg id is `m`; none when there is none. */
  function After(l: seq<Txn>, m: string): seq<Txn> {
    if l == [] then []
    else if l[0].legId == m then l[1..]
    else After(l[1..], m)
  }

  /** What follows the marker is a suffix of the list. */
  lemma {:induction false} AfterIsSuffix(l: seq<Txn>, m: string)
    ensures |After(l, m)| <= |l| && After(l, m) == l[|l| - |After(l, m)|..]
  {
    if l != [] && l[0].legId != m {
      AfterIsSuffix(l[1..], m);
    }
  }

  function Last(l: seq<Txn>): Txn
    requires l != []
  {
    l[|l| - 1]
  }

  function LastOf(l: seq<Txn>): Option<Txn> {
    if l == [] then None else Some(Last(l))
  }

  /** What pushing `ts` in order sends: the payloads up to the first get_json that raises, and its error. */
  datatype Run = Run(payloads: seq<Payload>, failure: Option<Error>)

  function PushAll(ts: seq<Txn>, acc: Accounts): Run {
    if ts == [] then Run([], None)
    else match GetJson(ts[0], acc)
      case Err(e) => Run([], Some(e))
      case Ok(p) =>
        var rest := PushAll(ts[1..], acc);
        Run([p] + rest.payloads, rest.failure)
  }

  /**
   * A pass pushes get_json of each transaction in order, and stops at the
   * first one that raises, with its error; it completes exactly when none does.
   */
  lemma {:induction false} PushAllMeaning(ts: seq<Txn>, acc: Accounts)
    ensures |PushAll(ts, acc).payloads| <= |ts|
    ensures forall i :: 0 <= i < |PushAll(ts, acc).payloads| ==> GetJson(ts[i], acc) == Ok(PushAll(ts, acc).payloads[i])
    ensures PushAll(ts, acc).failure.None? <==> |PushAll(ts, acc).payloads| == |ts|
    ensures PushAll(ts, acc).failure.Some? ==>
      GetJson(ts[|PushAll(ts, acc).payloads|], acc) == Err(PushAll(ts, acc).failure.value)
  {
    if ts != [] {
      PushAllMeaning(ts[1..], acc);
      forall i | 0 < i < |ts| ensures ts[i] == ts[1..][i - 1] {}
    }
  }

  /**
   * The leg id written to the marker file after a pass that did not raise, or
   * None when nothing is written: the last pushed transaction if any, else the
   * last transaction of the list when the marker was never found.
   */
  function NewMarker(l: seq<Txn>, m: string): Option<string> {
    var rest := After(l, m);
    if rest != [] then Some(Last(rest).legId)
    else if !Found(l, m) && l != [] then Some(Last(l).legId)
    else None
  }

  predicate UniqueIds(l: seq<Txn>) {
    forall i, j :: 0 <= i < j < |l| ==> l[i].legId != l[j].legId
  }

  class Transactions {
    const accounts: Accounts
    const currency: Option<string>
    const list: seq<Txn>
    /** The text of the marker file; the empty text when there is no file. */
    var marker: string
    /** Every payload posted to the ledger, in order. */
    ghost var pushed: seq<Payload>

    constructor (list: seq<Txn>, accounts: Accounts, currency: Option<string>, marker: string)
      ensures this.list == list && this.accounts == accounts && this.currency == currency
      ensures this.marker == marker && pushed == []
    {
      this.list := list;
      this.accounts := accounts;
      this.currency := currency;
      this.marker := marker;
      pushed := [];
    }

    /** The loop of FireflyTransactions.__init__: sorted feed, filtered, each kept record classified. */
    static method BuildList(feed: seq<Record>, currency: Option<string>) returns (r: Result<seq<Txn>, Error>)
      ensures r == ClassifyAll(Selection(feed, currency))
    {
      var sorted := SortByCreated(feed);
      var list: seq<Txn> := [];
      for i := 0 to |sorted|
        invariant ClassifyAll(Selected(currency, sorted[..i])) == Ok(list)
      {
        var rec := sorted[i];
        if Keep(currency, rec) {
          var t := ToTxn(rec);
          if t.Err? {
            BuildRaise(currency, sorted, i, list);
            return Err(t.error);
          }
          BuildAppend(currency, sorted, i, list);
          list := list + [t.value];
        } else {
          BuildSkip(currency, sorted, i);
        }
      }
      assert sorted[..|sorted|] == sorted;
      return Ok(list);
    }

    /** FireflyTransactions(...): raises when a kept record has an unknown type. */
    static method Create(feed: seq<Record>, accounts: Accounts, currency: Option<string>, marker: string)
      returns (r: Result<Transactions, Error>)
      ensures r.Err? <==> ClassifyAll(Selection(feed, currency)).Err?
      ensures r.Err? ==> r.error == ClassifyAll(Selection(feed, currency)).error
      ensures r.Ok? ==> fresh(r.value) && r.value.list == ClassifyAll(Selection(feed, currency)).value
      ensures r.Ok? ==> r.value.accounts == accounts && r.value.currency == currency
      ensures r.Ok? ==> r.value.marker == marker && r.value.pushed == []
    {
      var built := BuildList(feed, currency);
      match built
      case Err(e) => r := Err(e);
      case Ok(l) =>
        var t := new Transactions(l, accounts, currency, marker);
        r := Ok(t);
    }

    /**
     * process: pushes the transactions after the marked one, in order, and
     * rewrites the marker when the pass does not raise.
     */
    method Process() returns (failure: Option<Error>)
      modifies this`marker, this`pushed
      ensures failure == PushAll(After(list, ReadMarker(old(marker))), accounts).failure
      ensures pushed == old(pushed) + PushAll(After(list, ReadMarker(old(marker))), accounts).payloads
      ensures marker == (if failure.None? && NewMarker(list, ReadMarker(old(marker))).Some?
                         then NewMarker(list, ReadMarker(old(marker))).value
                         else old(marker))
    {
      var m := ReadMarker(marker);
      var active := false;
      var last: Option<Txn> := None;
      var freshRun: Option<Txn> := None;
      ghost var sent: seq<Payload> := [];
      assert list[..0] == [];
      for i := 0 to |list|
        invariant marker == old(marker)
        invariant pushed == old(pushed) + sent
        invariant active == Found(list[..i], m)
        invariant !active ==> After(list[..i], m) == [] && sent == []
        invariant PushAll(After(list[..i], m), accounts).failure.None?
        invariant PushAll(After(list[..i], m), accounts).payloads == sent
        invariant last == LastOf(After(list[..i], m))
        invariant freshRun == if !active && i > 0 then Some(list[i - 1]) else None
      {
        var t := list[i];
        if active {
          var payload := GetJson(t, accounts);
          if payload.Err? {
            StepPushErr(list, i, m, accounts, payload.error);
            failure := Some(payload.error);
            return;
          }
          StepPushOk(list, i, m, accounts, payload.value);
          pushed := pushed + [payload.value];
          sent := sent + [payload.value];
          last := Some(t);
        } else {
          StepSearching(list, i, m);
          if t.legId == m {
            active := true;
            freshRun := None;
          } else {
            freshRun := Some(t);
          }
        }
      }
      assert list[..|list|] == list;
      if last.Some? {
        marker := last.value.legId;
      } else if freshRun.Some? {
        marker := freshRun.value.legId;
      }
      failure := None;
    }
  }

  // ---------------------------------------------------------------------------
  // The pass, one transaction at a time.

  lemma {:induction false} FoundConcat(a: seq<Txn>, b: seq<Txn>, m: string)
    ensures Found(a + b, m) <==> Found(a, m) || Found(b, m)
  {
    if Found(a + b, m) {
      var i :| 0 <= i < |a + b| && (a + b)[i].legId == m;
      if i >= |a| {
        assert b[i - |a|].legId == m;
      }
    }
    if Found(a, m) {
      var i :| 0 <= i < |a| && a[i].legId == m;
      assert (a + b)[i].legId == m;
    }
    if Found(b, m) {
      var i :| 0 <= i < |b| && b[i].legId == m;
      assert (a + b)[|a| + i].legId == m;
    }
  }

  lemma {:induction false} AfterConcat(a: seq<Txn>, b: seq<Txn>, m: string)
    ensures After(a + b, m) == if Found(a, m) then After(a, m) + b else After(b, m)
  {
    if a == [] {
      assert a + b == b;
    } else {
      assert (a + b)[0] == a[0];
      assert (a + b)[1..] == a[1..] + b;
      AfterConcat(a[1..], b, m);
      FoundConcat([a[0]], a[1..], m);
      assert [a[0]] + a[1..] == a;
      if a[0].legId == m {
        assert Found(a, m);
      } else {
        assert !Found([a[0]], m);
      }
    }
  }

  /** A step of the pass once the marker has been seen: the marker stays found and the transaction is next to push. */
  lemma StepActive(l: seq<Txn>, i: nat, m: string)
    requires i < |l| && Found(l[..i], m)
    ensures Found(l[..i + 1], m)
    ensures After(l[..i + 1], m) == After(l[..i], m) + [l[i]]
    ensures After(l, m) == After(l[..i], m) + l[i..]
  {
    assert l[..i + 1] == l[..i] + [l[i]];
    FoundConcat(l[..i], [l[i]], m);
    AfterConcat(l[..i], [l[i]], m);
    assert l == l[..i] + l[i..];
    AfterConcat(l[..i], l[i..], m);
  }

  /** A step of the pass once the marker has been seen, when get_json succeeds: its payload is appended. */
  lemma StepPushOk(l: seq<Txn>, i: nat, m: string, acc: Accounts, p: Payload)
    requires i < |l| && Found(l[..i], m)
    requires PushAll(After(l[..i], m), acc).failure.None?
    requires GetJson(l[i], acc) == Ok(p)
    ensures Found(l[..i + 1], m)
    ensures LastOf(After(l[..i + 1], m)) == Some(l[i])
    ensures PushAll(After(l[..i + 1], m), acc) == Run(PushAll(After(l[..i], m), acc).payloads + [p], None)
  {
    var d := After(l[..i], m);
    StepActive(l, i, m);
    assert Last(d + [l[i]]) == l[i];
    PushOneOk(d, l[i], acc, p);
  }

  /** A step of the pass once the marker has been seen, when get_json raises: the whole pass raises here. */
  lemma StepPushErr(l: seq<Txn>, i: nat, m: string, acc: Accounts, e: Error)
    requires i < |l| && Found(l[..i], m)
    requires PushAll(After(l[..i], m), acc).failure.None?
    requires GetJson(l[i], acc) == Err(e)
    ensures PushAll(After(l, m), acc) == Run(PushAll(After(l[..i], m), acc).payloads, Some(e))
  {
    var d := After(l[..i], m);
    assert l == l[..i] + ([l[i]] + l[i + 1..]);
    AfterConcat(l[..i], [l[i]] + l[i + 1..], m);
    assert After(l, m) == d + ([l[i]] + l[i + 1..]);
    PushOneErr(d, l[i], l[i + 1..], acc, e);
  }

  /** Pushing one more transaction whose get_json succeeds appends its payload. */
  lemma PushOneOk(done: seq<Txn>, t: Txn, acc: Accounts, p: Payload)
    requires PushAll(done, acc).failure.None?
    requires GetJson(t, acc) == Ok(p)
    ensures PushAll(done + [t], acc) == Run(PushAll(done, acc).payloads + [p], None)
  {
    PushAllConcat(done, [t], acc);
    assert [t][0] == t && [t][1..] == [];
  }

  /** Pushing one more transaction whose get_json raises stops the pass with its error. */
  lemma PushOneErr(done: seq<Txn>, t: Txn, rest: seq<Txn>, acc: Accounts, e: Error)
    requires PushAll(done, acc).failure.None?
    requires GetJson(t, acc) == Err(e)
    ensures PushAll(done + ([t] + rest), acc) == Run(PushAll(done, acc).payloads, Some(e))
  {
    PushAllConcat(done, [t] + rest, acc);
    assert ([t] + rest)[0] == t;
  }

  /** A step of the pass before the marker has been seen: nothing is pushed. */
  lemma StepSearching(l: seq<Txn>, i: nat, m: string)
    requires i < |l| && !Found(l[..i], m)
    ensures Found(l[..i + 1], m) <==> l[i].legId == m
    ensures After(l[..i + 1], m) == []
  {
    assert l[..i + 1] == l[..i] + [l[i]];
    FoundConcat(l[..i], [l[i]], m);
    AfterConcat(l[..i], [l[i]], m);
    assert [l[i]][0] == l[i] && [l[i]][1..] == [];
    assert Found([l[i]], m) <==> l[i].legId == m;
  }

  lemma {:induction false} PushAllConcat(a: seq<Txn>, b: seq<Txn>, acc: Accounts)
    ensures PushAll(a + b, acc) ==
      if PushAll(a, acc).failure.Some? then PushAll(a, acc)
      else Run(PushAll(a, acc).payloads + PushAll(b, acc).payloads, PushAll(b, acc).failure)
  {
    if a == [] {
      assert a + b == b;
    } else {
      assert (a + b)[0] == a[0];
      assert (a + b)[1..] == a[1..] + b;
      PushAllConcat(a[1..], b, acc);
      match GetJson(a[0], acc)
      case Err(_) =>
      case Ok(p) =>
        var ra, rb := PushAll(a[1..], acc), PushAll(b, acc);
        assert [p] + (ra.payloads + rb.payloads) == ([p] + ra.payloads) + rb.payloads;
    }
  }

  // ---------------------------------------------------------------------------
  // What a pass pushes and where it leaves the marker.

  /** With the marker on x: exactly the transactions after x are pushed; the marker moves to the last of them. */
  lemma {:induction false} ResumeAfterMarker(p: seq<Txn>, x: Txn, s: seq<Txn>, m: string)
    requires x.legId == m
    requires forall i :: 0 <= i < |p| ==> p[i].legId != m
    ensures After(p + [x] + s, m) == s
    ensures NewMarker(p + [x] + s, m) == if s == [] then None else Some(Last(s).legId)
  {
    if p == [] {
      assert p + [x] + s == [x] + s;
    } else {
      assert (p + [x] + s)[1..] == p[1..] + [x] + s;
      ResumeAfterMarker(p[1..], x, s, m);
    }
    assert (p + [x] + s)[|p|].legId == m;
  }

  /** A marker that names no transaction: nothing is pushed and the marker moves to the last transaction. */
  lemma {:induction false} Bootstrap(l: seq<Txn>, m: string)
    requires !Found(l, m)
    ensures After(l, m) == []
    ensures NewMarker(l, m) == if l == [] then None else Some(Last(l).legId)
  {
    if l != [] {
      assert l[0].legId != m;
      assert !Found(l[1..], m) by {
        forall i | 0 <= i < |l[1..]| ensures l[1..][i].legId != m {
          assert l[1..][i] == l[i + 1];
        }
      }
      Bootstrap(l[1..], m);
    }
  }

  /** Any marker written is the leg id of the list's last transaction; nothing is written exactly when the list is empty or the marked transaction is its last. */
  lemma NewMarkerIsLast(l: seq<Txn>, m: string)
    ensures NewMarker(l, m).Some? ==> l != [] && NewMarker(l, m).value == Last(l).legId
    ensures NewMarker(l, m).None? <==> l == [] || (Found(l, m) && After(l, m) == [])
  {
    AfterIsSuffix(l, m);
  }

  /** With unique leg ids the marked transaction itself is never pushed. */
  lemma {:induction false} MarkerNeverPushed(l: seq<Txn>, m: string)
    requires UniqueIds(l)
    ensures forall i :: 0 <= i < |After(l, m)| ==> After(l, m)[i].legId != m
  {
    if l != [] && l[0].legId != m {
      assert UniqueIds(l[1..]) by {
        forall i, j | 0 <= i < j < |l[1..]| ensures l[1..][i].legId != l[1..][j].legId {
          assert l[1..][i] == l[i + 1] && l[1..][j] == l[j + 1];
        }
      }
      MarkerNeverPushed(l[1..], m);
    } else if l != [] {
      forall i | 0 <= i < |l[1..]| ensures l[1..][i].legId != m {
        assert l[1..][i] == l[i + 1];
      }
    }
  }

  /**
   * Idempotence after a pass that did not raise: on an unchanged list with unique
   * leg ids that the marker file stores faithfully, once the first pass has written
   * its new marker, a second pass pushes nothing and writes nothing.
   */
  lemma RerunPushesNothing(l: seq<Txn>, content: string)
    requires UniqueIds(l)
    requires l != [] ==> Clean(Last(l).legId)
    ensures var m := ReadMarker(content);
            var content' := if NewMarker(l, m).Some? then NewMarker(l, m).value else content;
            After(l, ReadMarker(content')) == [] && NewMarker(l, ReadMarker(content')) == None
  {
    var m := ReadMarker(content);
    NewMarkerIsLast(l, m);
    if NewMarker(l, m).Some? {
      RerunFromLast(l);
    }
  }

  /** The marker written on the last of uniquely-identified transactions is found at the end on the next pass. */
  lemma RerunFromLast(l: seq<Txn>)
    requires l != [] && UniqueIds(l) && Clean(Last(l).legId)
    ensures After(l, ReadMarker(Last(l).legId)) == [] && NewMarker(l, ReadMarker(Last(l).legId)) == None
  {
    ReadMarkerClean(Last(l).legId);
    RerunFromLastId(l);
  }

  /** With unique leg ids, the last leg id as marker is found at the end: nothing to push or write. */
  lemma RerunFromLastId(l: seq<Txn>)
    requires l != [] && UniqueIds(l)
    ensures After(l, Last(l).legId) == [] && NewMarker(l, Last(l).legId) == None
  {
    assert forall i :: 0 <= i < |l| - 1 ==> l[i].legId != Last(l).legId;
    MarkedLast(l);
  }

  /** When the last leg id occurs nowhere earlier, the marker on it is found and nothing follows it. */
  lemma {:induction false} MarkedLast(l: seq<Txn>)
    requires l != []
    requires forall i :: 0 <= i < |l| - 1 ==> l[i].legId != Last(l).legId
    ensures Found(l, Last(l).legId) && After(l, Last(l).legId) == []
  {
    if |l| > 1 {
      assert Last(l[1..]) == Last(l);
      forall i | 0 <= i < |l[1..]| - 1 ensures l[1..][i].legId != Last(l).legId {
        assert l[1..][i] == l[i + 1];
      }
      MarkedLast(l[1..]);
      var k :| 0 <= k < |l[1..]| && l[1..][k].legId == Last(l).legId;
      assert l[k + 1].legId == Last(l).legId;
    }
  }

  /**
   * A pass that raises part-way keeps the old marker. Here the transaction right
   * after the marker is posted and the next one raises, so the marker file is
   * not touched: the next pass starts from the same marker and posts `p` again.
   */
  lemma RepostAfterRaise(x: Txn, p: Txn, q: Txn, acc: Accounts)
    requires Clean(x.legId)
    requires !p.isVault && p.kind == Withdrawal
    requires !q.isVault && q.kind == Transfer && q.amount > 0 && acc.topupId.None?
    ensures GetJson(p, acc).Ok?
    ensures PushAll(After([x] + [p, q], ReadMarker(x.legId)), acc) == Run([GetJson(p, acc).value], Some(MissingTopupAccountId))
  {
    MarkerFirst(x, [p, q]);
    PushThenRaise(p, q, acc);
  }

  /** A marker that reads back unchanged, on the first transaction: everything after it is pushed. */
  lemma MarkerFirst(x: Txn, rest: seq<Txn>)
    requires Clean(x.legId)
    ensures After([x] + rest, ReadMarker(x.legId)) == rest
  {
    ReadMarkerClean(x.legId);
    assert ([x] + rest)[1..] == rest;
  }

  /** get_json succeeds on `p` and raises on `q`: the pass sends one payload and then raises. */
  lemma PushThenRaise(p: Txn, q: Txn, acc: Accounts)
    requires !p.isVault && p.kind == Withdrawal
    requires !q.isVault && q.kind == Transfer && q.amount > 0 && acc.topupId.None?
    ensures GetJson(p, acc).Ok?
    ensures PushAll([p, q], acc) == Run([GetJson(p, acc).value], Some(MissingTopupAccountId))
  {
    assert [p, q][1..] == [q];
    assert [q][1..] == [];
    assert PushAll([q], acc) == Run([], Some(MissingTopupAccountId));
  }
}
