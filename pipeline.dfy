/** The sales pipeline board: deals shown in one column per stage, column
    totals, and the drag-and-drop handler that moves a deal to another stage
    (components/pipeline/pipeline-board.tsx). */
module Pipeline {
  import opened Common

  /** A deal as the board holds it; `value` is a whole number of cents. */
  datatype Deal = Deal(
    id: string,
    title: string,
    companyName: Option<string>,
    value: int,
    stage: string,
    email: Option<string>)

  /** The column identifiers, in display order
      (app/(private)/admin/pipeline/constants.ts). */
  const Stages: seq<string> := ["new", "discovery", "proposal", "negotiation", "won", "lost"]

  const WonStage: string := "won"

  /** No string occurs twice in `stages`. */
  predicate Distinct(stages: seq<string>)
  {
    forall i, j :: 0 <= i < j < |stages| ==> stages[i] != stages[j]
  }

  lemma StagesAreDistinct()
    ensures Distinct(Stages)
  {
  }

  // ---------------------------------------------------------------------
  // Columns and their totals

  /** The deals of one column: `deals.filter(d => d.stage === stage)`. */
  function Column(deals: seq<Deal>, stage: string): (col: seq<Deal>)
    ensures |col| <= |deals|
    ensures forall d :: d in col ==> d in deals && d.stage == stage
  {
    if deals == [] then []
    else (if deals[0].stage == stage then [deals[0]] else []) + Column(deals[1..], stage)
  }

  /** A column holds exactly the deals of its stage. */
  lemma {:induction false} ColumnMembership(deals: seq<Deal>, stage: string, d: Deal)
    ensures d in Column(deals, stage) <==> d in deals && d.stage == stage
  {
    if deals != [] {
      ColumnMembership(deals[1..], stage, d);
      assert deals == [deals[0]] + deals[1..];
    }
  }

  /** A column keeps the backing list's order: filtering distributes over concatenation. */
  lemma {:induction false} ColumnOfConcat(a: seq<Deal>, b: seq<Deal>, stage: string)
    ensures Column(a + b, stage) == Column(a, stage) + Column(b, stage)
  {
    if a != [] {
      assert (a + b)[1..] == a[1..] + b;
      ColumnOfConcat(a[1..], b, stage);
    } else {
      assert a + b == b;
    }
  }

  /** Every deal whose stage is a column's id is in exactly one column; a
      deal with any other stage is in none. */
  lemma ColumnsPartitionDeals(deals: seq<Deal>, d: Deal)
    requires d in deals
    ensures d.stage in Stages ==> exists k :: 0 <= k < |Stages| && d in Column(deals, Stages[k])
    ensures d.stage !in Stages ==> forall k :: 0 <= k < |Stages| ==> d !in Column(deals, Stages[k])
    ensures forall j, k :: 0 <= j < k < |Stages| && d in Column(deals, Stages[j]) ==> d !in Column(deals, Stages[k])
  {
    StagesAreDistinct();
    forall k | 0 <= k < |Stages|
      ensures d in Column(deals, Stages[k]) <==> d.stage == Stages[k]
    {
      ColumnMembership(deals, Stages[k], d);
    }
  }

  /** `deals.reduce((acc, d) => acc + d.value, 0)`: a left fold. */
  function Total(deals: seq<Deal>): (t: int)
    ensures deals == [] ==> t == 0
    ensures |deals| == 1 ==> t == deals[0].value
  {
    if deals == [] then 0 else Total(deals[..|deals| - 1]) + deals[|deals| - 1].value
  }

  /** Totals add up over concatenation. */
  lemma {:induction false} TotalOfConcat(a: seq<Deal>, b: seq<Deal>)
    ensures Total(a + b) == Total(a) + Total(b)
  {
    if b == [] {
      assert a + b == a;
    } else {
      var n := |b| - 1;
      assert (a + b)[..|a + b| - 1] == a + b[..n];
      TotalOfConcat(a, b[..n]);
    }
  }

  /** The total shown in a column's header. */
  function ColumnTotal(deals: seq<Deal>, stage: string): (t: int)
    ensures Column(deals, stage) == [] ==> t == 0
    ensures (forall d :: d in deals ==> d.value >= 0) ==> t >= 0
  {
    NonNegativeTotal(Column(deals, stage));
    Total(Column(deals, stage))
  }

  lemma {:induction false} NonNegativeTotal(deals: seq<Deal>)
    ensures (forall d :: d in deals ==> d.value >= 0) ==> Total(deals) >= 0
  {
    if deals != [] {
      NonNegativeTotal(deals[..|deals| - 1]);
    }
  }

  /** The sum of the headers of the columns `stages`. */
  function ColumnsTotal(deals: seq<Deal>, stages: seq<string>): int
  {
    if stages == [] then 0 else ColumnTotal(deals, stages[0]) + ColumnsTotal(deals, stages[1..])
  }

  /** The sum of all column headers of the board. */
  function BoardTotal(deals: seq<Deal>): int
  {
    ColumnsTotal(deals, Stages)
  }

  /** What one deal adds to the headers of the columns `stages`. */
  function Contribution(d: Deal, stages: seq<string>): int
  {
    if d.stage in stages then d.value else 0
  }

  lemma {:induction false} ColumnsTotalCons(d: Deal, rest: seq<Deal>, stages: seq<string>)
    requires Distinct(stages)
    ensures ColumnsTotal([d] + rest, stages) == Contribution(d, stages) + ColumnsTotal(rest, stages)
  {
    if stages != [] {
      var s := stages[0];
      assert ([d] + rest)[1..] == rest;
      assert Column([d] + rest, s) == (if d.stage == s then [d] else []) + Column(rest, s);
      TotalOfConcat(if d.stage == s then [d] else [], Column(rest, s));
      assert Total([d]) == d.value by { assert [d][..0] == []; }
      assert Distinct(stages[1..]);
      ColumnsTotalCons(d, rest, stages[1..]);
      assert d.stage == s ==> d.stage !in stages[1..];
      assert d.stage in stages <==> d.stage == s || d.stage in stages[1..];
    }
  }

  // ---------------------------------------------------------------------
  // Moving a deal

  /** The optimistic update: every deal whose id is `dealId` gets stage
      `newStage`; `prev.map(deal => deal.id === dealId ? {...deal, stage} : deal)`. */
  function MoveDeal(deals: seq<Deal>, dealId: string, newStage: string): (moved: seq<Deal>)
    ensures |moved| == |deals|
    ensures forall i :: 0 <= i < |deals| ==>
              moved[i] == if deals[i].id == dealId then deals[i].(stage := newStage) else deals[i]
  {
    if deals == [] then []
    else
      [if deals[0].id == dealId then deals[0].(stage := newStage) else deals[0]]
      + MoveDeal(deals[1..], dealId, newStage)
  }

  /** After a move, the target column holds the dragged deal and its former
      column holds no deal with that id any more. */
  lemma MoveRelocatesDeal(deals: seq<Deal>, i: nat, newStage: string)
    requires i < |deals|
    ensures var d := deals[i];
            var moved := MoveDeal(deals, d.id, newStage);
            && d.(stage := newStage) in Column(moved, newStage)
            && (d.stage != newStage ==> forall e :: e in Column(moved, d.stage) ==> e.id != d.id)
  {
    var d := deals[i];
    var moved := MoveDeal(deals, d.id, newStage);
    ColumnMembership(moved, newStage, moved[i]);
    forall e | e in Column(moved, d.stage)
      ensures e.id != d.id || d.stage == newStage
    {
      ColumnMembership(moved, d.stage, e);
    }
  }

  /** A move between two columns of the board leaves the sum of all column
      headers unchanged. */
  lemma {:induction false} MoveConservesBoardTotal(deals: seq<Deal>, dealId: string, newStage: string)
    requires newStage in Stages
    requires forall d :: d in deals && d.id == dealId ==> d.stage in Stages
    ensures BoardTotal(MoveDeal(deals, dealId, newStage)) == BoardTotal(deals)
  {
    if deals != [] {
      StagesAreDistinct();
      var d, rest := deals[0], deals[1..];
      assert deals == [d] + rest;
      var moved := MoveDeal(deals, dealId, newStage);
      var d' := moved[0];
      assert moved == [d'] + MoveDeal(rest, dealId, newStage);
      ColumnsTotalCons(d, rest, Stages);
      ColumnsTotalCons(d', MoveDeal(rest, dealId, newStage), Stages);
      MoveConservesBoardTotal(rest, dealId, newStage);
    }
  }

  /** The two-deal example: moving deal "1" from `new` to `won`. */
  lemma MoveToWonExample()
    ensures var d1 := Deal("1", "A", None, 1000, "new", None);
            var d2 := Deal("2", "B", None, 500, "new", None);
            var moved := MoveDeal([d1, d2], "1", "won");
            && Column(moved, "new") == [d2]
            && Column(moved, "won") == [d1.(stage := "won")]
            && ColumnTotal(moved, "negotiation") == 0
  {
  }

  // ---------------------------------------------------------------------
  // The board component's state

  /** The call to the server action that persists a stage change. */
  datatype StageUpdate = StageUpdate(dealId: string, newStage: string)

  /** The React state of `PipelineBoard` that drag and drop changes. */
  class PipelineBoard {
    var deals: seq<Deal>
    var activeDeal: Option<Deal>
    var wonDeal: Option<Deal>
    var wonOpen: bool

    constructor (initialDeals: seq<Deal>)
      ensures deals == initialDeals
      ensures activeDeal == None && wonDeal == None && !wonOpen
    {
      deals := initialDeals;
      activeDeal := None;
      wonDeal := None;
      wonOpen := false;
    }

    /** `handleDragStart`: remember the dragged deal for the drag preview. */
    method DragStart(dragged: Option<Deal>)
      modifies this`activeDeal
      ensures activeDeal == dragged
    {
      activeDeal := dragged;
    }

    /** `handleDragEnd` for the deal `dealId`, whose snapshot taken when the
        drag began is `currentDeal`, dropped on column `over` (`None` when
        released outside every column). `persisted` says whether the awaited
        server action resolved; when it rejects, the handler stops after the
        optimistic update, which is not rolled back. Returns the persistence
        call made. */
    method DragEnd(dealId: string, currentDeal: Deal, over: Option<string>, persisted: bool)
      returns (update: Option<StageUpdate>)
      modifies this`deals, this`activeDeal, this`wonDeal, this`wonOpen
      ensures activeDeal == None
      ensures over.None? || over.value == currentDeal.stage ==>
                deals == old(deals) && update == None && wonDeal == old(wonDeal) && wonOpen == old(wonOpen)
      ensures over.Some? && over.value != currentDeal.stage ==>
                deals == MoveDeal(old(deals), dealId, over.value) && update == Some(StageUpdate(dealId, over.value))
      ensures over.Some? && over.value != currentDeal.stage && over.value == WonStage && persisted ==>
                wonDeal == Some(currentDeal.(stage := WonStage)) && wonOpen
      ensures !(over.Some? && over.value != currentDeal.stage && over.value == WonStage && persisted) ==>
                wonDeal == old(wonDeal) && wonOpen == old(wonOpen)
    {
      activeDeal := None;
      update := None;
      if over.None? {
        return;
      }
      var newStage := over.value;
      if currentDeal.stage == newStage {
        return;
      }
      deals := MoveDeal(deals, dealId, newStage);
      update := Some(StageUpdate(dealId, newStage));
      if !persisted {
        return;
      }
      if newStage == WonStage {
        wonDeal := Some(currentDeal.(stage := WonStage));
        wonOpen := true;
      }
    }

    /** `handleDragCancel`: the drag preview goes away, nothing else changes. */
    method DragCancel()
      modifies this`activeDeal
      ensures activeDeal == None
    {
      activeDeal := None;
    }

    /** The won dialog's `onOpenChange`. */
    method SetWonOpen(open: bool)
      modifies this`wonOpen
      ensures wonOpen == open
    {
      wonOpen := open;
    }
  }
}
