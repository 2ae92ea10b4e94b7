/** The undo and redo history of the hexagon editor: a cursor that walks a bounded timeline of cell lists. */
module HexHistory {
  import opened JsMath

  type Cells = seq<string>

  datatype History = History(past: seq<Cells>, present: Cells, future: seq<Cells>)

  const MAX_STEPS := 50

  function Init(cells: Cells): History { History([], cells, []) }

  /** `slice(-n)` */
  function LastOf<T>(q: seq<T>, n: nat): seq<T> { if |q| <= n then q else q[|q| - n..] }

  function Push(h: History, next: Cells): History {
    if next == h.present then h else History(LastOf(h.past + [h.present], MAX_STEPS), next, [])
  }

  function Undo(h: History): History {
    if h.past == [] then h else History(h.past[..|h.past| - 1], h.past[|h.past| - 1], [h.present] + h.future)
  }

  function Redo(h: History): History {
    if h.future == [] then h else History(h.past + [h.present], h.future[0], h.future[1..])
  }

  datatype Event = DoPush(next: Cells) | DoUndo | DoRedo

  function Step(h: History, e: Event): History {
    match e
    case DoPush(next) => Push(h, next)
    case DoUndo => Undo(h)
    case DoRedo => Redo(h)
  }

  function Exec(h: History, es: seq<Event>): History
    decreases |es|
  {
    if es == [] then h else Exec(Step(h, es[0]), es[1..])
  }

  /** All states, oldest first; the present one is at index `|past|`. */
  function Timeline(h: History): seq<Cells> { h.past + [h.present] + h.future }

  /** Where a cursor over `n` states ends up: undo is one to the left, redo one to the right, never over an end. */
  function Walk(at: int, n: nat, es: seq<Event>): int
    decreases |es|
  {
    if es == [] then at
    else Walk(match es[0] case DoUndo => MaxI(0, at - 1) case DoRedo => MinI(n - 1, at + 1) case _ => at, n, es[1..])
  }

  /** Undo and redo in any order change no state: they move the cursor, and the present is what it points at. */
  lemma {:induction false} UndoRedoOnlyMove(h: History, es: seq<Event>)
    requires forall i | 0 <= i < |es| :: !es[i].DoPush?
    ensures var h', at := Exec(h, es), Walk(|h.past|, |Timeline(h)|, es);
            Timeline(h') == Timeline(h) && |h'.past| == at && 0 <= at < |Timeline(h)| && h'.present == Timeline(h)[at]
    decreases |es|
  {
    if es != [] {
      var h1 := Step(h, es[0]);
      assert Timeline(h1) == Timeline(h);
      UndoRedoOnlyMove(h1, es[1..]);
    }
  }

  /** The history never holds more than 51 states, redo included, although only a new state trims it. */
  lemma {:induction false} HistoryIsBounded(h: History, es: seq<Event>)
    requires |Timeline(h)| <= 51
    ensures |Timeline(Exec(h, es))| <= 51
    decreases |es|
  {
    if es != [] { HistoryIsBounded(Step(h, es[0]), es[1..]); }
  }

  /**
   * A new state drops the redo states and keeps everything up to the present, but for the oldest state of a full
   * history; undoing it gives the present back. A state equal to the present is not recorded.
   */
  lemma PushExtendsPast(h: History, next: Cells)
    requires |Timeline(h)| <= 51 && next != h.present
    ensures var t := h.past + [h.present] + [next];
            Timeline(Push(h, next)) == (if |h.past| == 50 then t[1..] else t)
    ensures Undo(Push(h, next)).present == h.present && Redo(Undo(Push(h, next))) == Push(h, next)
    ensures Push(h, h.present) == h
  {
    var t := h.past + [h.present] + [next];
    assert (h.past + [h.present])[1..] + [next] == t[1..];
  }
}
