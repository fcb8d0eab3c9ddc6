/** The hook of src/hooks/useAutoConvertPending.ts: whenever the pending
    incomes change, the ones that are due are converted into incomes, one
    after another. The conversion is `RemoteStore.ConvertWrites`; whether
    each insert succeeds is the parameter `insertOk`, indexed by call. */
module AutoConvert {

  import opened Base
  import opened Dates
  import opened FinanceTypes
  import opened RemoteStore

  /** Lines 12-19: not yet converted, and expected on or before today. Both
      sides are set to local midnight, so the expected date counts as the
      local day of its midnight UTC; `todayDay` is today's local day and
      `offsetMs` the local zone's offset from UTC. A date that does not
      parse compares false, so it is never due. */
  predicate IsDue(p: PendingIncome, todayDay: int, offsetMs: int)
  {
    !p.converted && ParseDate(p.expectedDate).Some? && LocalDay(ParseDate(p.expectedDate).value, offsetMs) <= todayDay
  }

  function DueFilter(todayDay: int, offsetMs: int): PendingIncome -> bool
  {
    (p: PendingIncome) => IsDue(p, todayDay, offsetMs)
  }

  /** `pendingToConvert`: exactly the records not yet converted whose
      expected day, taken in the local zone, is on or before today; a date
      that does not parse is never due. West of UTC a record falls due on
      the local day before its expected date. */
  function SelectDue(pending: seq<PendingIncome>, todayDay: int, offsetMs: int): (r: seq<PendingIncome>)
    ensures |r| <= |pending|
    ensures forall p :: p in r <==>
      p in pending && !p.converted && ParseDate(p.expectedDate).Some? && LocalDay(ParseDate(p.expectedDate).value, offsetMs) <= todayDay
    ensures -MsPerDay < offsetMs < 0 ==> forall p :: p in r <==>
      p in pending && !p.converted && ParseDate(p.expectedDate).Some? && ParseDate(p.expectedDate).value - 1 <= todayDay
    ensures 0 <= offsetMs < MsPerDay ==> forall p :: p in r <==>
      p in pending && !p.converted && ParseDate(p.expectedDate).Some? && ParseDate(p.expectedDate).value <= todayDay
  {
    Filter(pending, DueFilter(todayDay, offsetMs))
  }

  /** The selection keeps list order: selecting from two lists one after
      the other is selecting from their concatenation. */
  lemma SelectDueOrder(a: seq<PendingIncome>, b: seq<PendingIncome>, todayDay: int, offsetMs: int)
    ensures SelectDue(a + b, todayDay, offsetMs) == SelectDue(a, todayDay, offsetMs) + SelectDue(b, todayDay, offsetMs)
  {
    FilterAppend(a, b, DueFilter(todayDay, offsetMs));
  }

  /** The remote writes of converting `due[0]`, `due[1]`, ... in turn; the
      `i`-th call's insert succeeds iff `insertOk(i)`. */
  function ConversionWrites(pending: seq<PendingIncome>, due: seq<PendingIncome>, today: string, insertOk: nat -> bool): seq<RemoteWrite>
  {
    if due == [] then []
    else ConversionWrites(pending, due[..|due| - 1], today, insertOk)
         + ConvertWrites(pending, due[|due| - 1].id, today, insertOk(|due| - 1))
  }

  lemma ConversionWritesSnoc(pending: seq<PendingIncome>, due: seq<PendingIncome>, p: PendingIncome, today: string, insertOk: nat -> bool)
    ensures ConversionWrites(pending, due + [p], today, insertOk) ==
            ConversionWrites(pending, due, today, insertOk) + ConvertWrites(pending, p.id, today, insertOk(|due|))
  {
    assert (due + [p])[..|due|] == due;
  }

  /** The writes of the first `i + 1` calls. */
  lemma ConversionWritesPrefix(pending: seq<PendingIncome>, due: seq<PendingIncome>, i: nat, today: string, insertOk: nat -> bool)
    requires i < |due|
    ensures ConversionWrites(pending, due[..i + 1], today, insertOk) ==
            ConversionWrites(pending, due[..i], today, insertOk) + ConvertWrites(pending, due[i].id, today, insertOk(i))
  {
    assert due[..i + 1] == due[..i] + [due[i]];
    ConversionWritesSnoc(pending, due[..i], due[i], today, insertOk);
  }

  function IdOf(p: PendingIncome): string
  {
    p.id
  }

  /** `checkAndConvert` behind its guard: no scan at all when the list is
      empty; otherwise one conversion per due record, in list order, and a
      failed one does not stop the rest. `calls` are the ids handed to
      `convertPendingToIncome`, `writes` what those calls send. */
  method CheckAndConvert(pending: seq<PendingIncome>, todayDay: int, offsetMs: int, today: string, insertOk: nat -> bool)
    returns (calls: seq<string>, writes: seq<RemoteWrite>)
    ensures pending == [] ==> calls == [] && writes == []
    ensures pending != [] ==> calls == Map(SelectDue(pending, todayDay, offsetMs), IdOf)
    ensures pending != [] ==> writes == ConversionWrites(pending, SelectDue(pending, todayDay, offsetMs), today, insertOk)
  {
    calls, writes := [], [];
    if |pending| > 0 {
      calls, writes := ConvertEach(pending, SelectDue(pending, todayDay, offsetMs), today, insertOk);
    }
  }

  /** Lines 21-27: the `for ... of` loop, one awaited conversion per record. */
  method ConvertEach(pending: seq<PendingIncome>, due: seq<PendingIncome>, today: string, insertOk: nat -> bool)
    returns (calls: seq<string>, writes: seq<RemoteWrite>)
    ensures calls == Map(due, IdOf)
    ensures writes == ConversionWrites(pending, due, today, insertOk)
  {
    calls, writes := [], [];
    var i := 0;
    while i < |due|
      invariant 0 <= i <= |due|
      invariant calls == Map(due[..i], IdOf)
      invariant writes == ConversionWrites(pending, due[..i], today, insertOk)
    {
      MapPrefix(due, i, IdOf);
      ConversionWritesPrefix(pending, due, i, today, insertOk);
      calls := calls + [due[i].id];
      writes := writes + ConvertWrites(pending, due[i].id, today, insertOk(i));
      i := i + 1;
    }
    assert due[..|due|] == due;
  }

  predicate UniquePendingIds(pending: seq<PendingIncome>)
  {
    forall i, j :: 0 <= i < j < |pending| ==> pending[i].id != pending[j].id
  }

  lemma {:induction false} FindPendingUnique(pending: seq<PendingIncome>, k: nat)
    requires UniquePendingIds(pending) && k < |pending|
    ensures FindPending(pending, pending[k].id) == Some(pending[k])
  {
    if k > 0 {
      assert pending[0].id != pending[k].id;
      assert UniquePendingIds(pending[1..]);
      FindPendingUnique(pending[1..], k - 1);
    }
  }

  /** What one call sends for a present, unconverted record. */
  function CallWrites(p: PendingIncome, today: string, ok: bool): seq<RemoteWrite>
  {
    if ok then [InsertTransaction(ConvertedIncome(p, today)), MarkConverted(p.id)]
    else [InsertTransaction(ConvertedIncome(p, today))]
  }

  lemma CallWritesFacts(p: PendingIncome, today: string, ok: bool)
    ensures Count(CallWrites(p, today, ok), IsInsert) == 1
    ensures InsertTransaction(ConvertedIncome(p, today)) in CallWrites(p, today, ok)
    ensures forall x :: MarkConverted(x) in CallWrites(p, today, ok) <==> ok && x == p.id
    ensures ok ==> CallWrites(p, today, ok)[1] == MarkConverted(p.id)
  {
    var w := CallWrites(p, today, ok);
    if ok {
      assert w[1..][1..] == [];
      assert Count(w[1..], IsInsert) == 0;
    } else {
      assert w[1..] == [];
    }
  }

  /** One record that is present under a unique id and not yet converted. */
  lemma OneConversion(pending: seq<PendingIncome>, k: nat, today: string, ok: bool)
    requires UniquePendingIds(pending) && k < |pending| && !pending[k].converted
    ensures ConvertWrites(pending, pending[k].id, today, ok) == CallWrites(pending[k], today, ok)
  {
    FindPendingUnique(pending, k);
  }

  predicate IsInsert(w: RemoteWrite)
  {
    w.InsertTransaction?
  }

  /** The writes of the last call of a non-empty run. */
  lemma ConversionWritesLast(pending: seq<PendingIncome>, due: seq<PendingIncome>, today: string, insertOk: nat -> bool)
    requires UniquePendingIds(pending) && due != []
    requires due[|due| - 1] in pending && !due[|due| - 1].converted
    ensures ConversionWrites(pending, due, today, insertOk) ==
      ConversionWrites(pending, due[..|due| - 1], today, insertOk) + CallWrites(due[|due| - 1], today, insertOk(|due| - 1))
  {
    var k :| 0 <= k < |pending| && pending[k] == due[|due| - 1];
    OneConversion(pending, k, today, insertOk(|due| - 1));
  }

  /** One more call on top of a run: its one insert joins the run's. */
  lemma InsertsStep(before: seq<RemoteWrite>, here: seq<RemoteWrite>, init: seq<PendingIncome>,
                    due: seq<PendingIncome>, today: string)
    requires due != [] && init == due[..|due| - 1]
    requires Count(before, IsInsert) == |init|
    requires forall i :: 0 <= i < |init| ==> InsertTransaction(ConvertedIncome(init[i], today)) in before
    requires Count(here, IsInsert) == 1
    requires InsertTransaction(ConvertedIncome(due[|due| - 1], today)) in here
    ensures Count(before + here, IsInsert) == |due|
    ensures forall i :: 0 <= i < |due| ==> InsertTransaction(ConvertedIncome(due[i], today)) in before + here
  {
    CountAppend(before, here, IsInsert);
    forall i | 0 <= i < |due| ensures InsertTransaction(ConvertedIncome(due[i], today)) in before + here {
      if i < |init| {
        assert due[i] == init[i];
      }
    }
  }

  /** With distinct ids, every selected record is converted: one insert per
      record and no other insert, carrying that record's income. */
  lemma {:induction false} EveryDueRecordInserted(pending: seq<PendingIncome>, due: seq<PendingIncome>, today: string, insertOk: nat -> bool)
    requires UniquePendingIds(pending)
    requires forall p :: p in due ==> p in pending && !p.converted
    ensures Count(ConversionWrites(pending, due, today, insertOk), IsInsert) == |due|
    ensures forall i :: 0 <= i < |due| ==>
      InsertTransaction(ConvertedIncome(due[i], today)) in ConversionWrites(pending, due, today, insertOk)
  {
    if due != [] {
      var n := |due| - 1;
      var init := due[..n];
      assert forall p :: p in init ==> p in due;
      EveryDueRecordInserted(pending, init, today, insertOk);
      ConversionWritesLast(pending, due, today, insertOk);
      CallWritesFacts(due[n], today, insertOk(n));
      InsertsStep(ConversionWrites(pending, init, today, insertOk), CallWrites(due[n], today, insertOk(n)), init, due, today);
    }
  }

  /** One more call on top of a run: it marks at most its own record. */
  lemma MarksOnlyStep(before: seq<RemoteWrite>, here: seq<RemoteWrite>, init: seq<PendingIncome>,
                      due: seq<PendingIncome>, insertOk: nat -> bool)
    requires due != [] && init == due[..|due| - 1]
    requires forall x :: MarkConverted(x) in before ==> exists i :: 0 <= i < |init| && init[i].id == x && insertOk(i)
    requires forall x :: MarkConverted(x) in here ==> x == due[|due| - 1].id && insertOk(|due| - 1)
    ensures forall x :: MarkConverted(x) in before + here ==> exists i :: 0 <= i < |due| && due[i].id == x && insertOk(i)
  {
    forall x | MarkConverted(x) in before + here
      ensures exists i :: 0 <= i < |due| && due[i].id == x && insertOk(i)
    {
      if MarkConverted(x) in before {
        var i :| 0 <= i < |init| && init[i].id == x && insertOk(i);
        assert due[i] == init[i];
      } else {
        assert MarkConverted(x) in here;
        assert due[|due| - 1].id == x && insertOk(|due| - 1);
      }
    }
  }

  /** A record is marked converted only if it was selected and its own
      insert went through. */
  lemma {:induction false} MarksOnlyInserted(pending: seq<PendingIncome>, due: seq<PendingIncome>, today: string, insertOk: nat -> bool)
    requires UniquePendingIds(pending)
    requires forall p :: p in due ==> p in pending && !p.converted
    ensures forall x :: MarkConverted(x) in ConversionWrites(pending, due, today, insertOk) ==>
      exists i :: 0 <= i < |due| && due[i].id == x && insertOk(i)
  {
    if due != [] {
      var n := |due| - 1;
      var init := due[..n];
      assert forall p :: p in init ==> p in due;
      MarksOnlyInserted(pending, init, today, insertOk);
      ConversionWritesLast(pending, due, today, insertOk);
      CallWritesFacts(due[n], today, insertOk(n));
      MarksOnlyStep(ConversionWrites(pending, init, today, insertOk), CallWrites(due[n], today, insertOk(n)), init, due, insertOk);
    }
  }

  /** One more call on top of a run: a successful insert marks its record. */
  lemma MarkedStep(before: seq<RemoteWrite>, here: seq<RemoteWrite>, init: seq<PendingIncome>,
                   due: seq<PendingIncome>, insertOk: nat -> bool)
    requires due != [] && init == due[..|due| - 1]
    requires forall i :: 0 <= i < |init| && insertOk(i) ==> MarkConverted(init[i].id) in before
    requires insertOk(|due| - 1) ==> MarkConverted(due[|due| - 1].id) in here
    ensures forall i :: 0 <= i < |due| && insertOk(i) ==> MarkConverted(due[i].id) in before + here
  {
    forall i | 0 <= i < |due| && insertOk(i) ensures MarkConverted(due[i].id) in before + here {
      if i < |init| {
        assert due[i] == init[i];
      }
    }
  }

  /** Every selected record whose insert went through is marked converted. */
  lemma {:induction false} InsertedAreMarked(pending: seq<PendingIncome>, due: seq<PendingIncome>, today: string, insertOk: nat -> bool)
    requires UniquePendingIds(pending)
    requires forall p :: p in due ==> p in pending && !p.converted
    ensures forall i :: 0 <= i < |due| && insertOk(i) ==> MarkConverted(due[i].id) in ConversionWrites(pending, due, today, insertOk)
  {
    if due != [] {
      var n := |due| - 1;
      var init := due[..n];
      assert forall p :: p in init ==> p in due;
      InsertedAreMarked(pending, init, today, insertOk);
      ConversionWritesLast(pending, due, today, insertOk);
      CallWritesFacts(due[n], today, insertOk(n));
      MarkedStep(ConversionWrites(pending, init, today, insertOk), CallWrites(due[n], today, insertOk(n)), init, due, insertOk);
    }
  }

  /** Lines 12-27 together, for pending records with distinct ids: each due
      record gets its income inserted, exactly one insert each, and the
      records marked converted are exactly the due ones whose insert went
      through. */
  lemma DueRecordsConverted(pending: seq<PendingIncome>, todayDay: int, offsetMs: int, today: string, insertOk: nat -> bool)
    requires UniquePendingIds(pending)
    ensures Count(ConversionWrites(pending, SelectDue(pending, todayDay, offsetMs), today, insertOk), IsInsert) == |SelectDue(pending, todayDay, offsetMs)|
    ensures forall p :: p in SelectDue(pending, todayDay, offsetMs) ==>
      InsertTransaction(ConvertedIncome(p, today)) in ConversionWrites(pending, SelectDue(pending, todayDay, offsetMs), today, insertOk)
    ensures forall x :: MarkConverted(x) in ConversionWrites(pending, SelectDue(pending, todayDay, offsetMs), today, insertOk) <==>
      exists i :: 0 <= i < |SelectDue(pending, todayDay, offsetMs)| && SelectDue(pending, todayDay, offsetMs)[i].id == x && insertOk(i)
  {
    var due := SelectDue(pending, todayDay, offsetMs);
    EveryDueRecordInserted(pending, due, today, insertOk);
    MarksOnlyInserted(pending, due, today, insertOk);
    InsertedAreMarked(pending, due, today, insertOk);
    forall p | p in due
      ensures InsertTransaction(ConvertedIncome(p, today)) in ConversionWrites(pending, due, today, insertOk)
    {
      var i :| 0 <= i < |due| && due[i] == p;
    }
  }
}
