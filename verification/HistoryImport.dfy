/**
 * The resumable import of an account's history: each call fetches the page after the persisted cursor
 * and then advances the cursor, and may fail before, between or after those two steps.
 */
module HistoryImport {
  import opened Prelude

  const MAX_PAGE_LIMIT := 200

  datatype ImportStatus = Running | Completed | Failed

  /** One history stream; `accountId` is the trimmed account id. */
  datatype Stream = Stream(accountId: string, resourceType: string, network: string)

  datatype Row = Row(cursor: Option<string>, status: ImportStatus, recordsImported: nat, lastError: Option<string>)

  /** How a call goes; `recorded` tells whether noting the failure in the row succeeds. */
  datatype Outcome =
    | Succeeds
    | UpsertFails
    | FetchFails(error: string, recorded: bool)
    | PersistFails(error: string, recorded: bool)

  datatype Reply = Imported(cursor: Option<string>, recordsImported: nat, recordsThisRun: nat) | Rejected | Unavailable

  function NormalizePageLimit(pageLimit: Option<int>): (n: nat)
    ensures 1 <= n <= MAX_PAGE_LIMIT
    ensures pageLimit.Some? && 1 <= pageLimit.value <= MAX_PAGE_LIMIT ==> n == pageLimit.value
    ensures !(pageLimit.Some? && 1 <= pageLimit.value <= MAX_PAGE_LIMIT) ==> n == 200
  {
    if pageLimit == None || pageLimit.value <= 0 then MAX_PAGE_LIMIT else Min(pageLimit.value, MAX_PAGE_LIMIT)
  }

  // ----- Horizon's side: the records of a stream by paging token, oldest first -----

  predicate WellFormed(history: seq<string>) {
    && (forall i :: 0 <= i < |history| ==> history[i] != "")
    && (forall i, j :: 0 <= i < j < |history| ==> history[i] != history[j])
  }

  function PositionAfter(history: seq<string>, token: string): (n: nat)
    ensures n <= |history|
  {
    if history == [] then 0
    else if history[0] == token then 1
    else 1 + PositionAfter(history[1..], token)
  }

  /** An empty cursor is falsy, so it is not sent. */
  function Page(history: seq<string>, cursor: Option<string>, limit: nat): seq<string> {
    var from := if cursor in {None, Some("")} then 0 else PositionAfter(history, cursor.value);
    history[from..Min(from + limit, |history|)]
  }

  // ----- The service's side -----

  /** The cursor table, and per stream the records handed over by successful calls. */
  datatype State = State(rows: map<Stream, Row>, imported: map<Stream, seq<string>>)

  function Records(s: State, stream: Stream): seq<string> {
    if stream in s.imported then s.imported[stream] else []
  }

  function Started(s: State, stream: Stream): Row {
    if stream in s.rows then s.rows[stream].(status := Running) else Row(None, Running, 0, None)
  }

  function NoteFailure(row: Row, error: string, recorded: bool): Row {
    if recorded then row.(status := Failed, lastError := Some(error)) else row
  }

  function Resume(s: State, history: seq<string>, stream: Stream, pageLimit: Option<int>, outcome: Outcome)
    : (State, Reply)
  {
    if stream.accountId == "" then (s, Rejected)
    else
      var row := Started(s, stream);
      match outcome
      case UpsertFails => (s, Unavailable)
      case FetchFails(error, recorded) =>
        (s.(rows := s.rows[stream := NoteFailure(row, error, recorded)]), Unavailable)
      case PersistFails(error, recorded) =>
        (s.(rows := s.rows[stream := NoteFailure(row, error, recorded)]), Unavailable)
      case Succeeds =>
        var page := Page(history, row.cursor, NormalizePageLimit(pageLimit));
        var cursor := if page == [] then row.cursor else Some(page[|page| - 1]);
        var row' := Row(cursor, Completed, row.recordsImported + |page|, None);
        (State(s.rows[stream := row'], s.imported[stream := Records(s, stream) + page]),
         Imported(cursor, row'.recordsImported, |page|))
  }

  class HistoryImportService {
    var rows: map<Stream, Row>
    ghost var imported: map<Stream, seq<string>>

    ghost function Model(): State
      reads this
    {
      State(rows, imported)
    }

    constructor ()
      ensures Model() == State(map[], map[])
    {
      rows, imported := map[], map[];
    }

    method ResumeImport(history: seq<string>, stream: Stream, pageLimit: Option<int>, outcome: Outcome)
      returns (reply: Reply)
      modifies this
      ensures (Model(), reply) == Resume(old(Model()), history, stream, pageLimit, outcome)
    {
      if stream.accountId == "" {
        return Rejected;
      }
      var limit := NormalizePageLimit(pageLimit);
      if outcome.UpsertFails? {
        return Unavailable;
      }
      UpsertCursor(stream);
      var cursor := rows[stream].cursor;
      if outcome.FetchFails? {
        RecordFailure(stream, outcome.error, outcome.recorded);
        assert rows == old(rows)[stream := rows[stream]];
        return Unavailable;
      }
      var page := Page(history, cursor, limit);
      if |page| > 0 {
        cursor := Some(page[|page| - 1]);
      }
      if outcome.PersistFails? {
        RecordFailure(stream, outcome.error, outcome.recorded);
        assert rows == old(rows)[stream := rows[stream]];
        return Unavailable;
      }
      rows := rows[stream := Row(cursor, Completed, rows[stream].recordsImported + |page|, None)];
      imported := imported[stream := (if stream in imported then imported[stream] else []) + page];
      assert rows == old(rows)[stream := rows[stream]];
      return Imported(cursor, rows[stream].recordsImported, |page|);
    }

    /** The row of a stream, created on its first import, is marked as running. */
    method UpsertCursor(stream: Stream)
      modifies this`rows
      ensures rows == old(rows)[stream := Started(old(Model()), stream)]
    {
      if stream in rows {
        rows := rows[stream := rows[stream].(status := Running)];
      } else {
        rows := rows[stream := Row(None, Running, 0, None)];
      }
    }

    /** Best effort, and never touching the cursor. */
    method RecordFailure(stream: Stream, error: string, recorded: bool)
      requires stream in rows
      modifies this`rows
      ensures rows == old(rows)[stream := NoteFailure(old(rows)[stream], error, recorded)]
    {
      if recorded {
        rows := rows[stream := rows[stream].(status := Failed, lastError := Some(error))];
      }
    }
  }

  // ----- Runs -----

  datatype Op =
    | Grow(stream: Stream, records: seq<string>)
    | Call(stream: Stream, pageLimit: Option<int>, outcome: Outcome)

  datatype World = World(history: map<Stream, seq<string>>, state: State)

  function History(w: World, stream: Stream): seq<string> {
    if stream in w.history then w.history[stream] else []
  }

  /** Horizon appends records with new tokens only; other growth is not a step. */
  function Step(w: World, op: Op): World {
    match op
    case Grow(stream, records) =>
      if WellFormed(History(w, stream) + records)
      then w.(history := w.history[stream := History(w, stream) + records]) else w
    case Call(stream, pageLimit, outcome) =>
      w.(state := Resume(w.state, History(w, stream), stream, pageLimit, outcome).0)
  }

  function Run(w: World, ops: seq<Op>): World {
    if ops == [] then w else Step(Run(w, ops[..|ops| - 1]), ops[|ops| - 1])
  }

  const Empty := World(map[], State(map[], map[]))

  /** The last token of a prefix, as a cursor. */
  function LastOf(done: seq<string>): Option<string> {
    if done == [] then None else Some(done[|done| - 1])
  }

  /** The records handed over are the prefix of the history that the row's cursor and counter describe. */
  ghost predicate Consistent(s: State, history: seq<string>, stream: Stream) {
    var done := Records(s, stream);
    && WellFormed(history)
    && done <= history
    && (stream !in s.rows ==> done == [])
    && (stream in s.rows ==>
          && s.rows[stream].recordsImported == |done|
          && s.rows[stream].cursor == LastOf(done))
  }

  ghost predicate Inv(w: World, stream: Stream) {
    Consistent(w.state, History(w, stream), stream)
  }

  lemma {:induction false} PositionOf(history: seq<string>, n: nat)
    requires WellFormed(history) && n < |history|
    ensures PositionAfter(history, history[n]) == n + 1
  {
    if n > 0 {
      PositionOf(history[1..], n - 1);
    }
  }

  /** The page that follows the cursor of a prefix is the next piece of the history. */
  lemma NextPage(history: seq<string>, done: seq<string>, limit: nat)
    requires WellFormed(history) && done <= history
    ensures Page(history, LastOf(done), limit) == history[|done|..Min(|done| + limit, |history|)]
  {
    if done != [] {
      assert done[|done| - 1] == history[|done| - 1];
      PositionOf(history, |done| - 1);
    }
  }

  function Successful(op: Op, stream: Stream): bool {
    op.Call? && op.stream == stream && op.outcome.Succeeds? && stream.accountId != ""
  }

  lemma LastOfNext(history: seq<string>, done: seq<string>, end: nat)
    requires done <= history && |done| <= end <= |history|
    ensures var page := history[|done|..end];
      && done + page == history[..end]
      && LastOf(history[..end]) == if page == [] then LastOf(done) else Some(page[|page| - 1])
  {
    if end == |done| {
      assert history[..end] == done;
    }
  }

  /** What a success writes, if the next page ends at `end`. */
  lemma SuccessWrites(
      s: State, history: seq<string>, stream: Stream, pageLimit: Option<int>, done: seq<string>, end: nat)
    requires stream.accountId != "" && done == Records(s, stream) && done <= history && |done| <= end <= |history|
    requires Started(s, stream).cursor == LastOf(done) && Started(s, stream).recordsImported == |done|
    requires Page(history, LastOf(done), NormalizePageLimit(pageLimit)) == history[|done|..end]
    ensures var s' := Resume(s, history, stream, pageLimit, Succeeds).0;
      && stream in s'.rows && s'.rows[stream] == Row(LastOf(history[..end]), Completed, end, None)
      && Records(s', stream) == history[..end]
  {
    LastOfNext(history, done, end);
  }

  lemma SuccessStep(s: State, history: seq<string>, stream: Stream, pageLimit: Option<int>)
    requires Consistent(s, history, stream) && stream.accountId != ""
    ensures var s' := Resume(s, history, stream, pageLimit, Succeeds).0;
      && Consistent(s', history, stream)
      && |Records(s', stream)| == Min(|Records(s, stream)| + NormalizePageLimit(pageLimit), |history|)
  {
    var done, limit := Records(s, stream), NormalizePageLimit(pageLimit);
    NextPage(history, done, limit);
    SuccessWrites(s, history, stream, pageLimit, done, Min(|done| + limit, |history|));
  }

  /** What does not succeed hands nothing over and moves no cursor. */
  lemma FailureStep(
      s: State, history: seq<string>, call: Stream, pageLimit: Option<int>, outcome: Outcome,
      of: seq<string>, stream: Stream)
    requires Consistent(s, of, stream)
    requires !(call == stream && outcome.Succeeds? && stream.accountId != "")
    ensures var s' := Resume(s, history, call, pageLimit, outcome).0;
      Consistent(s', of, stream) && Records(s', stream) == Records(s, stream)
  {
  }

  lemma InvStep(w: World, op: Op, stream: Stream)
    requires Inv(w, stream)
    ensures Inv(Step(w, op), stream)
    ensures var done, done' := Records(w.state, stream), Records(Step(w, op).state, stream);
      if Successful(op, stream)
      then |done'| == Min(|done| + NormalizePageLimit(op.pageLimit), |History(w, stream)|)
      else done' == done
  {
    match op
    case Grow(_, _) =>
    case Call(call, pageLimit, outcome) =>
      if Successful(op, stream) {
        SuccessStep(w.state, History(w, stream), stream, pageLimit);
      } else {
        FailureStep(w.state, History(w, call), call, pageLimit, outcome, History(w, stream), stream);
      }
  }

  lemma {:induction false} InvRun(w: World, ops: seq<Op>, stream: Stream)
    requires Inv(w, stream)
    ensures Inv(Run(w, ops), stream)
  {
    if ops != [] {
      InvRun(w, ops[..|ops| - 1], stream);
      InvStep(Run(w, ops[..|ops| - 1]), ops[|ops| - 1], stream);
    }
  }

  // ----- Theorems -----

  /**
   * In every mix of growth, successful calls and failing calls, on any streams: the successful pages of a
   * stream concatenated are its history up to the cursor, once each and in order, and the counter is their number.
   */
  lemma ExactlyOnce(ops: seq<Op>, stream: Stream)
    ensures var w := Run(Empty, ops);
      var done := Records(w.state, stream);
      && done <= History(w, stream)
      && (stream in w.state.rows ==>
            && w.state.rows[stream].recordsImported == |done|
            && w.state.rows[stream].cursor == if done == [] then None else Some(History(w, stream)[|done| - 1]))
      && (stream !in w.state.rows ==> done == [])
  {
    InvRun(Empty, ops, stream);
  }

  function Successes(ops: seq<Op>, stream: Stream): nat {
    if ops == [] then 0
    else Successes(ops[..|ops| - 1], stream) + if Successful(ops[|ops| - 1], stream) then 1 else 0
  }

  /** The stream does not grow, and its calls use one page limit; everything else is free. */
  predicate Steady(ops: seq<Op>, stream: Stream, limit: nat) {
    forall i :: 0 <= i < |ops| && ops[i].stream == stream ==>
      ops[i].Call? && NormalizePageLimit(ops[i].pageLimit) == limit
  }

  /** Where n pages lead from `done` in a history of length `end`, page by page. */
  function Advance(done: nat, limit: nat, n: nat, end: nat): nat {
    if n == 0 then done else Min(Advance(done, limit, n - 1, end) + limit, end)
  }

  lemma {:induction false} AdvanceClosed(done: nat, limit: nat, n: nat, end: nat)
    requires done <= end
    ensures Advance(done, limit, n, end) == Min(done + limit * n, end)
  {
    if n > 0 {
      AdvanceClosed(done, limit, n - 1, end);
      assert limit * n == limit * (n - 1) + limit;
    }
  }

  lemma ProgressStep(w: World, op: Op, stream: Stream, limit: nat)
    requires Inv(w, stream)
    requires op.stream == stream ==> op.Call? && NormalizePageLimit(op.pageLimit) == limit
    ensures History(Step(w, op), stream) == History(w, stream)
    ensures var done, end := |Records(w.state, stream)|, |History(w, stream)|;
      |Records(Step(w, op).state, stream)| == if Successful(op, stream) then Min(done + limit, end) else done
  {
    InvStep(w, op, stream);
  }

  lemma {:induction false} Progress(w: World, ops: seq<Op>, stream: Stream, limit: nat)
    requires Inv(w, stream) && Steady(ops, stream, limit)
    ensures History(Run(w, ops), stream) == History(w, stream)
    ensures |Records(Run(w, ops).state, stream)|
      == Advance(|Records(w.state, stream)|, limit, Successes(ops, stream), |History(w, stream)|)
  {
    if ops != [] {
      Progress(w, ops[..|ops| - 1], stream, limit);
      ProgressLast(w, ops, stream, limit);
      AdvanceMore(|Records(w.state, stream)|, limit, Successes(ops[..|ops| - 1], stream), |History(w, stream)|);
    }
  }

  lemma ProgressLast(w: World, ops: seq<Op>, stream: Stream, limit: nat)
    requires Inv(w, stream) && Steady(ops, stream, limit) && ops != []
    ensures var m, w' := Run(w, ops[..|ops| - 1]), Run(w, ops);
      && History(w', stream) == History(m, stream)
      && |Records(w'.state, stream)| == (
           if Successful(ops[|ops| - 1], stream) then Min(|Records(m.state, stream)| + limit, |History(m, stream)|)
           else |Records(m.state, stream)|)
  {
    InvRun(w, ops[..|ops| - 1], stream);
    ProgressStep(Run(w, ops[..|ops| - 1]), ops[|ops| - 1], stream, limit);
  }

  lemma AdvanceMore(done: nat, limit: nat, n: nat, end: nat)
    ensures Advance(done, limit, n + 1, end) == Min(Advance(done, limit, n, end) + limit, end)
  {
  }

  /**
   * With r records unseen, the import is at the end after exactly those segments with at least ceil(r / limit)
   * successes, however many failures lie between; from there a further success changes neither cursor nor count.
   */
  lemma ReachesEnd(w: World, ops: seq<Op>, stream: Stream, limit: nat, extra: Op)
    requires Inv(w, stream) && Steady(ops, stream, limit) && limit > 0
    ensures var r := |History(w, stream)| - |Records(w.state, stream)|;
      var w' := Run(w, ops);
      && (Records(w'.state, stream) == History(w', stream) <==> Successes(ops, stream) >= CeilDiv(r, limit))
      && (Records(w'.state, stream) == History(w', stream) && Successful(extra, stream) && stream in w'.state.rows ==>
            var row, row' := w'.state.rows[stream], Step(w', extra).state.rows[stream];
            row'.cursor == row.cursor && row'.recordsImported == row.recordsImported)
  {
    var w' := Run(w, ops);
    Progress(w, ops, stream, limit);
    InvRun(w, ops, stream);
    AtEnd(|Records(w.state, stream)|, limit, Successes(ops, stream), |History(w, stream)|);
    assert Records(w'.state, stream) <= History(w', stream);
    if Records(w'.state, stream) == History(w', stream) && Successful(extra, stream) && stream in w'.state.rows {
      ExtraChangesNothing(w', extra, stream);
    }
  }

  lemma AtEnd(done: nat, limit: nat, n: nat, end: nat)
    requires done <= end && limit > 0
    ensures Advance(done, limit, n, end) == end <==> n >= CeilDiv(end - done, limit)
  {
    AdvanceClosed(done, limit, n, end);
    EnoughPages(end - done, limit, n);
  }

  lemma ExtraChangesNothing(w: World, extra: Op, stream: Stream)
    requires Inv(w, stream) && Records(w.state, stream) == History(w, stream)
    requires Successful(extra, stream) && stream in w.state.rows
    ensures var row, row' := w.state.rows[stream], Step(w, extra).state.rows[stream];
      row'.cursor == row.cursor && row'.recordsImported == row.recordsImported
  {
    NextPage(History(w, stream), Records(w.state, stream), NormalizePageLimit(extra.pageLimit));
  }

  lemma EnoughPages(r: nat, limit: nat, n: nat)
    requires limit > 0
    ensures limit * n >= r <==> n >= CeilDiv(r, limit)
  {
    CeilDivBounds(r, limit);
    Threshold(r, limit, n, CeilDiv(r, limit));
  }

  lemma Threshold(r: nat, limit: nat, n: nat, c: int)
    requires r <= c * limit < r + limit
    ensures limit * n >= r <==> n >= c
  {
    Multiples(n, c, limit);
  }

  // ----- What a call answers and notes -----

  /**
   * A successful call completes the row, clears its error and reports the row's cursor and count and the size of its
   * page. A failing one keeps cursor and count and is marked as failed with its message, or stays running if even that
   * cannot be written. No other stream's row changes.
   */
  lemma ResumeDecides(
      s: State, history: seq<string>, stream: Stream, pageLimit: Option<int>, outcome: Outcome, other: Stream)
    ensures var (s', reply) := Resume(s, history, stream, pageLimit, outcome);
      && (stream.accountId == "" ==> s' == s && reply == Rejected)
      && (stream.accountId != "" && outcome == UpsertFails ==> s' == s && reply == Unavailable)
      && (other != stream ==>
            (other in s'.rows <==> other in s.rows) && (other in s.rows ==> s'.rows[other] == s.rows[other]))
      && (stream.accountId != "" && outcome != UpsertFails ==>
            && stream in s'.rows
            && var row' := s'.rows[stream];
            && var cursor := if stream in s.rows then s.rows[stream].cursor else None;
            && var count := if stream in s.rows then s.rows[stream].recordsImported else 0;
            && var error := if stream in s.rows then s.rows[stream].lastError else None;
            && (outcome.Succeeds? ==>
                  && row'.status == Completed && row'.lastError == None
                  && var page := Page(history, cursor, NormalizePageLimit(pageLimit));
                  && row'.recordsImported == count + |page|
                  && reply == Imported(row'.cursor, row'.recordsImported, |page|))
            && (!outcome.Succeeds? ==>
                  && reply == Unavailable && row'.cursor == cursor && row'.recordsImported == count
                  && (outcome.recorded ==> row'.status == Failed && row'.lastError == Some(outcome.error))
                  && (!outcome.recorded ==> row'.status == Running && row'.lastError == error)))
  {
  }
}
