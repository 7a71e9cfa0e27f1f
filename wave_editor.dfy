/**
 * The state machine behind the custom-waveform editor: a component count and
 * two arrays of Fourier coefficients, 12 slots each at the start (`real`,
 * here `realCoeffs`, for the cosine terms, `imag`, here `imagCoeffs`, for the
 * sine terms), the reducer that applies one edit at a time,
 * the projection the editor hands to the audio controller, and the choice of
 * action made by the coefficient input handler.
 *
 * Coefficients are only copied, never computed, so they are Dafny reals.
 */
module WaveEditor {

  /** How many coefficient slots each of `real` and `imag` holds. */
  const Slots: nat := 12

  /** The editor's state: how many components are in use and both coefficient arrays. */
  datatype EditorState = EditorState(componentCount: int, realCoeffs: seq<real>, imagCoeffs: seq<real>)

  /** The three edits the reducer understands, with their payloads. */
  datatype Action =
    | SetComponentCount(count: int)
    | SetRealComponent(value: real, index: int)
    | SetImagComponent(value: real, index: int)

  /** Both coefficient arrays have exactly `Slots` entries. */
  predicate WellShaped(s: EditorState) {
    |s.realCoeffs| == Slots && |s.imagCoeffs| == Slots
  }

  /** The state the editor starts from: two components, a pure fundamental cosine. */
  function InitialState(): (s: EditorState)
    ensures s.componentCount == 2
    ensures WellShaped(s)
    ensures s.realCoeffs[1] == 1.0
    ensures forall i :: 0 <= i < Slots && i != 1 ==> s.realCoeffs[i] == 0.0
    ensures forall i :: 0 <= i < Slots ==> s.imagCoeffs[i] == 0.0
  {
    EditorState(
      2,
      [0.0, 1.0, 0.0, 0.0, 0.0, 0.0, 0.0, 0.0, 0.0, 0.0, 0.0, 0.0],
      [0.0, 0.0, 0.0, 0.0, 0.0, 0.0, 0.0, 0.0, 0.0, 0.0, 0.0, 0.0])
  }

  /**
   * A copy of `items` in which slot `index` holds `value`. Writing just past
   * the end, as JavaScript allows, grows the copy by that one slot.
   */
  function UpdateArrayValue<T>(items: seq<T>, index: int, value: T): (res: seq<T>)
    requires 0 <= index <= |items|
    ensures |res| == if index < |items| then |items| else |items| + 1
    ensures res[index] == value
    ensures forall j :: 0 <= j < |items| && j != index ==> res[j] == items[j]
  {
    if index < |items| then items[index := value] else items + [value]
  }

  /**
   * The same operation on a mutable array: the result is a new array, and the
   * argument, which this method may not modify, keeps its contents.
   */
  method UpdateArrayCopy<T>(items: array<T>, index: int, value: T) returns (res: array<T>)
    requires 0 <= index <= items.Length
    ensures fresh(res)
    ensures res[..] == UpdateArrayValue(items[..], index, value)
  {
    var n := if index < items.Length then items.Length else items.Length + 1;
    res := new T[n](i requires 0 <= i < n reads items => if i < items.Length then items[i] else value);
    res[index] := value;
  }

  /** The index an action writes to, if any, is a slot of `s` or the one just past its end. */
  predicate IndexFits(s: EditorState, a: Action) {
    match a
    case SetComponentCount(_) => true
    case SetRealComponent(_, i) => 0 <= i <= |s.realCoeffs|
    case SetImagComponent(_, i) => 0 <= i <= |s.imagCoeffs|
  }

  /** Applies one action; each action changes exactly one field, or one slot of one array. */
  function Reducer(state: EditorState, action: Action): (next: EditorState)
    requires IndexFits(state, action)
    ensures action.SetComponentCount? ==>
              && next.componentCount == action.count
              && next.realCoeffs == state.realCoeffs
              && next.imagCoeffs == state.imagCoeffs
    ensures action.SetRealComponent? ==>
              && next.componentCount == state.componentCount
              && next.imagCoeffs == state.imagCoeffs
              && |next.realCoeffs| == (if action.index < |state.realCoeffs| then |state.realCoeffs| else |state.realCoeffs| + 1)
              && next.realCoeffs[action.index] == action.value
              && forall j :: 0 <= j < |state.realCoeffs| && j != action.index ==> next.realCoeffs[j] == state.realCoeffs[j]
    ensures action.SetImagComponent? ==>
              && next.componentCount == state.componentCount
              && next.realCoeffs == state.realCoeffs
              && |next.imagCoeffs| == (if action.index < |state.imagCoeffs| then |state.imagCoeffs| else |state.imagCoeffs| + 1)
              && next.imagCoeffs[action.index] == action.value
              && forall j :: 0 <= j < |state.imagCoeffs| && j != action.index ==> next.imagCoeffs[j] == state.imagCoeffs[j]
  {
    match action
    case SetComponentCount(count) => state.(componentCount := count)
    case SetRealComponent(value, index) => state.(realCoeffs := UpdateArrayValue(state.realCoeffs, index, value))
    case SetImagComponent(value, index) => state.(imagCoeffs := UpdateArrayValue(state.imagCoeffs, index, value))
  }

  /** The index an action writes to, if any, is one of the `Slots` coefficient positions. */
  predicate InSlotRange(a: Action) {
    match a
    case SetComponentCount(_) => true
    case SetRealComponent(_, i) => 0 <= i < Slots
    case SetImagComponent(_, i) => 0 <= i < Slots
  }

  /** Every action with an in-range index keeps both arrays at `Slots` entries. */
  lemma ReducerKeepsShape(state: EditorState, action: Action)
    requires WellShaped(state) && InSlotRange(action)
    ensures IndexFits(state, action)
    ensures WellShaped(Reducer(state, action))
  {
  }

  /**
   * Each action of `actions` writes, if at all, to a slot of the state
   * reached just before it, or to the slot just past that state's end.
   */
  predicate AllFit(state: EditorState, actions: seq<Action>)
    decreases |actions|
  {
    || actions == []
    || (IndexFits(state, actions[0]) && AllFit(Reducer(state, actions[0]), actions[1..]))
  }

  /** From a 12-slot state, actions whose indices are all below `Slots` always fit. */
  lemma {:induction false} InSlotRangeFits(state: EditorState, actions: seq<Action>)
    requires WellShaped(state)
    requires forall k :: 0 <= k < |actions| ==> InSlotRange(actions[k])
    ensures AllFit(state, actions)
    decreases |actions|
  {
    if actions != [] {
      ReducerKeepsShape(state, actions[0]);
      assert forall k :: 0 <= k < |actions| - 1 ==> actions[1..][k] == actions[k + 1];
      InSlotRangeFits(Reducer(state, actions[0]), actions[1..]);
    }
  }

  /**
   * The state reached by dispatching `actions` in order, starting from
   * `state`. The arrays never shrink; from a 12-slot state, actions whose
   * indices stay below `Slots` keep both arrays at 12 slots.
   */
  function DispatchAll(state: EditorState, actions: seq<Action>): (final: EditorState)
    requires AllFit(state, actions)
    ensures |state.realCoeffs| <= |final.realCoeffs| && |state.imagCoeffs| <= |final.imagCoeffs|
    ensures WellShaped(state) && (forall k :: 0 <= k < |actions| ==> InSlotRange(actions[k])) ==>
              WellShaped(final)
    decreases |actions|
  {
    if actions == [] then state
    else
      assert forall k :: 0 <= k < |actions| - 1 ==> actions[1..][k] == actions[k + 1];
      DispatchAll(Reducer(state, actions[0]), actions[1..])
  }

  /**
   * Along any sequence of dispatches, an array no action targets keeps its
   * contents, and the count is untouched unless a count action occurs.
   */
  lemma {:induction false} DispatchAllLeavesUntargetedFields(state: EditorState, actions: seq<Action>)
    requires AllFit(state, actions)
    ensures (forall k :: 0 <= k < |actions| ==> !actions[k].SetComponentCount?) ==>
              DispatchAll(state, actions).componentCount == state.componentCount
    ensures (forall k :: 0 <= k < |actions| ==> !actions[k].SetRealComponent?) ==>
              DispatchAll(state, actions).realCoeffs == state.realCoeffs
    ensures (forall k :: 0 <= k < |actions| ==> !actions[k].SetImagComponent?) ==>
              DispatchAll(state, actions).imagCoeffs == state.imagCoeffs
    decreases |actions|
  {
    if actions != [] {
      var next := Reducer(state, actions[0]);
      DispatchAllLeavesUntargetedFields(next, actions[1..]);
      assert forall k :: 0 <= k < |actions| - 1 ==> actions[1..][k] == actions[k + 1];
    }
  }

  function Min(a: int, b: int): int { if a <= b then a else b }

  /** Where JavaScript's `slice(0, end)` stops on an array of length `len`. */
  function SliceEnd(end: int, len: nat): (stop: nat)
    ensures stop <= len
    ensures 0 <= end ==> stop == Min(end, len)
    ensures end < 0 ==> stop + Min(-end, len) == len
  {
    if end < 0 then (if len + end < 0 then 0 else len + end)
    else if end < len then end
    else len
  }

  /** JavaScript's `s.slice(0, end)`: a prefix of `s`; a negative `end` counts from the back. */
  function Slice<T>(s: seq<T>, end: int): (r: seq<T>)
    ensures r <= s
    ensures |r| == SliceEnd(end, |s|)
  {
    s[..SliceEnd(end, |s|)]
  }

  /**
   * The coefficient arrays the editor passes to the audio controller after
   * each state change: the first `componentCount` entries of `real` and of
   * `imag`.
   */
  function EmittedWave(s: EditorState): (wave: (seq<real>, seq<real>))
    ensures wave.0 <= s.realCoeffs && wave.1 <= s.imagCoeffs
    ensures 0 <= s.componentCount ==>
              && |wave.0| == Min(s.componentCount, |s.realCoeffs|)
              && |wave.1| == Min(s.componentCount, |s.imagCoeffs|)
    ensures WellShaped(s) ==> |wave.0| == |wave.1| <= Slots
  {
    (Slice(s.realCoeffs, s.componentCount), Slice(s.imagCoeffs, s.componentCount))
  }

  /** The first emission of a fresh editor is the controller's default custom wave. */
  lemma InitialWaveIsFundamentalCosine()
    ensures EmittedWave(InitialState()) == ([0.0, 1.0], [0.0, 0.0])
  {
    var s := InitialState();
    assert Slice(s.realCoeffs, 2) == s.realCoeffs[..2] == [0.0, 1.0];
    assert Slice(s.imagCoeffs, 2) == s.imagCoeffs[..2] == [0.0, 0.0];
  }

  /**
   * The action dispatched by a coefficient input: the `data-type` tag
   * `"real"` selects the real array and every other tag the imaginary one;
   * the value and index are passed on unchanged.
   */
  function ComponentChangeAction(dataType: string, value: real, index: int): (a: Action)
    ensures a.SetRealComponent? <==> dataType == "real"
    ensures a.SetImagComponent? <==> dataType != "real"
    ensures !a.SetComponentCount? && a.value == value && a.index == index
  {
    if dataType == "real" then SetRealComponent(value, index) else SetImagComponent(value, index)
  }

  /**
   * The 12-slot shape is not kept by every reachable edit. The count field
   * accepts a typed 13, the editor then renders an input for index 12, and
   * editing it appends a 13th real coefficient; the next emission has 13 real
   * and 12 imaginary coefficients.
   */
  lemma CountAboveSlotsUnbalancesWave(v: real)
    ensures var counted := Reducer(InitialState(), SetComponentCount(13));
            && Slots < counted.componentCount
            && IndexFits(counted, ComponentChangeAction("real", v, Slots))
            && var edited := Reducer(counted, ComponentChangeAction("real", v, Slots));
               && |edited.realCoeffs| == Slots + 1
               && !WellShaped(edited)
               && |EmittedWave(edited).0| == Slots + 1
               && |EmittedWave(edited).1| == Slots
  {
    var counted := Reducer(InitialState(), SetComponentCount(13));
    var edited := Reducer(counted, ComponentChangeAction("real", v, Slots));
    assert |edited.realCoeffs| == 13 && |edited.imagCoeffs| == 12;
  }
}
