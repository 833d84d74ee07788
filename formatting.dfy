/**
 * The line-joining pass of `format_json` (`tc_utils/formatting.py`), over the lines that
 * `json.dumps(..., indent='\t')` produced: a "stations" or "pathSuggestion" array is put on one
 * line, and so is each entry of a "neededCapacity" array.
 */
module Formatting {
  import opened Wrappers
  import opened Seqs
  import opened Text

  /** `station_re[0].match`: the stripped line starts a station or path-suggestion array. */
  predicate StationStart(s: string)
  {
    StartsWith(s, "\"stations\": [") || StartsWith(s, "\"pathSuggestion\": [")
  }

  /** `needed_capacity_re[0].match`. */
  predicate NeededStart(s: string)
  {
    StartsWith(s, "\"neededCapacity\": [")
  }

  /** The pattern that ends an accumulation: `]` for a station array (`station_re[1]`), `},?` for a capacity entry. */
  datatype End = BracketEnd | BraceEnd

  predicate Ends(e: End, s: string)
  {
    match e
    case BracketEnd => StartsWith(s, "]")
    case BraceEnd => StartsWith(s, "}")
  }

  /** `state`, `end_re` and `line_acc` between two lines. */
  datatype Machine = Machine(state: int, endRe: Option<End>, acc: seq<string>)

  const Initial := Machine(0, None, [])

  /** A line of the dump together with its `strip()`. */
  datatype Line = Line(raw: string, stripped: string)

  function Lines(texts: seq<string>): (r: seq<Line>)
    ensures |r| == |texts|
    ensures forall i :: 0 <= i < |texts| ==> r[i] == Line(texts[i], Strip(texts[i]))
  {
    if texts == [] then []
    else Lines(texts[..|texts| - 1]) + [Line(texts[|texts| - 1], Strip(texts[|texts| - 1]))]
  }

  /** One step: the new machine, the lines it emits, and how many input lines those emitted lines hold. */
  datatype Stepped = Stepped(machine: Machine, emitted: seq<string>, held: nat)

  /**
   * The loop body for one line. Inside a neededCapacity array (state 1) the source emits only
   * closing-bracket lines and starts an accumulation on a `{` line; any other line is lost.
   * With `keepStray` such a line is passed through instead.
   */
  function Step(m: Machine, line: Line, keepStray: bool): (r: Stepped)
    ensures |r.emitted| <= 1
    ensures r.emitted == [] ==> r.held == 0
    ensures m.endRe.Some? && Ends(m.endRe.value, line.stripped) ==>
      r.machine == Machine(if m.state == 4 then 1 else 0, None, [])
      && r.emitted == [Join(" ", m.acc + [line.stripped])] && r.held == |m.acc| + 1
    ensures m.endRe.Some? && !Ends(m.endRe.value, line.stripped) ==>
      r.machine == m.(acc := m.acc + [line.stripped]) && r.emitted == []
  {
    var s := line.stripped;
    if m.endRe.None? then
      if StationStart(s) then Stepped(Machine(m.state, Some(BracketEnd), m.acc + [line.raw]), [], 0)
      else if NeededStart(s) then Stepped(Machine(1, None, m.acc), [line.raw], 1)
      else if m.state == 1 then
        if s == "{" then Stepped(Machine(4, Some(BraceEnd), m.acc + [line.raw]), [], 0)
        else if StartsWith(s, "]") then Stepped(Machine(0, None, m.acc), [line.raw], 1)
        else if keepStray then Stepped(m, [line.raw], 1)
        else Stepped(m, [], 0)
      else Stepped(Machine(0, None, m.acc), [line.raw], 1)
    else
      var acc := m.acc + [s];
      if Ends(m.endRe.value, s) then
        Stepped(Machine(if m.state == 4 then 1 else 0, None, []), [Join(" ", acc)], |acc|)
      else Stepped(m.(acc := acc), [], 0)
  }

  /** The machine after the lines, the output so far, and how many input lines the output holds. */
  datatype Ran = Ran(machine: Machine, out: seq<string>, held: nat)

  function RunFrom(m: Machine, lines: seq<Line>, keepStray: bool): (r: Ran)
    ensures |r.out| <= |lines|
  {
    if lines == [] then Ran(m, [], 0)
    else
      var before := RunFrom(m, lines[..|lines| - 1], keepStray);
      var step := Step(before.machine, lines[|lines| - 1], keepStray);
      Ran(step.machine, before.out + step.emitted, before.held + step.held)
  }

  /** `format_json` as written, on the lines of the dump. */
  function FormatAsWritten(texts: seq<string>): (r: seq<string>)
    ensures |r| <= |texts|
  {
    RunFrom(Initial, Lines(texts), false).out
  }

  /** `format_json` with stray lines inside a neededCapacity array kept. */
  function Format(texts: seq<string>): (r: seq<string>)
    ensures |r| <= |texts|
  {
    RunFrom(Initial, Lines(texts), true).out
  }

  // ---------------------------------------------------------------------------------------------
  // Properties

  /** Running over one more line is one more step. */
  lemma RunSnoc(m: Machine, lines: seq<Line>, line: Line, keepStray: bool)
    ensures var before := RunFrom(m, lines, keepStray);
      var step := Step(before.machine, line, keepStray);
      RunFrom(m, lines + [line], keepStray) == Ran(step.machine, before.out + step.emitted, before.held + step.held)
  {
    assert (lines + [line])[..|lines|] == lines;
  }

  /** Running over two pieces is running over the second from where the first ended. */
  lemma {:induction false} RunConcat(m: Machine, a: seq<Line>, b: seq<Line>, keepStray: bool)
    ensures var first := RunFrom(m, a, keepStray);
      var second := RunFrom(first.machine, b, keepStray);
      RunFrom(m, a + b, keepStray) == Ran(second.machine, first.out + second.out, first.held + second.held)
  {
    if b != [] {
      var init := b[..|b| - 1];
      var last := b[|b| - 1];
      RunConcat(m, a, init, keepStray);
      var first := RunFrom(m, a, keepStray);
      var mid := RunFrom(first.machine, init, keepStray);
      var step := Step(mid.machine, last, keepStray);
      LastSplit(b);
      ConcatAssoc(a, init, [last]);
      RunSnoc(m, a + init, last, keepStray);
      RunSnoc(first.machine, init, last, keepStray);
      assert RunFrom(m, a + b, keepStray) == Ran(step.machine, (first.out + mid.out) + step.emitted, (first.held + mid.held) + step.held);
      assert RunFrom(first.machine, b, keepStray) == Ran(step.machine, mid.out + step.emitted, mid.held + step.held);
      ConcatAssoc(first.out, mid.out, step.emitted);
    } else {
      assert a + b == a;
    }
  }

  /** The stripped forms of the lines. */
  function StrippedOf(lines: seq<Line>): (r: seq<string>)
    ensures |r| == |lines| && forall i :: 0 <= i < |lines| ==> r[i] == lines[i].stripped
  {
    seq(|lines|, i requires 0 <= i < |lines| => lines[i].stripped)
  }

  /** While no line ends the accumulation, lines are only collected, stripped. */
  lemma {:induction false} Accumulates(m: Machine, middle: seq<Line>, keepStray: bool)
    requires m.endRe.Some?
    requires forall i :: 0 <= i < |middle| ==> !Ends(m.endRe.value, middle[i].stripped)
    ensures RunFrom(m, middle, keepStray) == Ran(m.(acc := m.acc + StrippedOf(middle)), [], 0)
  {
    if middle != [] {
      var init := middle[..|middle| - 1];
      Accumulates(m, init, keepStray);
      assert StrippedOf(middle) == StrippedOf(init) + [middle[|middle| - 1].stripped];
    }
  }

  /**
   * A station array outside any accumulation, from its opening line up to the first line that
   * starts with ']', becomes one output line: the opening line as it is and the others
   * stripped, joined with single spaces. The machine then returns to state 0, also when the
   * array began inside a capacity array.
   */
  lemma BlockIsJoined(state: int, first: Line, middle: seq<Line>, last: Line, keepStray: bool)
    requires StationStart(first.stripped) && state != 4
    requires forall i :: 0 <= i < |middle| ==> !StartsWith(middle[i].stripped, "]")
    requires StartsWith(last.stripped, "]")
    ensures RunFrom(Machine(state, None, []), [first] + middle + [last], keepStray)
      == Ran(Machine(0, None, []), [Join(" ", [first.raw] + StrippedOf(middle) + [last.stripped])], |middle| + 2)
  {
    var m := Machine(state, None, []);
    assert [first][..0] == [];
    var started := Machine(state, Some(BracketEnd), [first.raw]);
    assert RunFrom(m, [first], keepStray) == Ran(started, [], 0);
    Accumulates(started, middle, keepStray);
    RunConcat(m, [first], middle, keepStray);
    RunConcat(m, [first] + middle, [last], keepStray);
    assert [last][..0] == [];
  }

  /**
   * Inside a capacity array, an entry from its `{` line to the first line that starts with '}'
   * becomes one line, and the machine is back in the capacity array.
   */
  lemma EntryIsJoined(open: Line, middle: seq<Line>, close: Line, keepStray: bool)
    requires open.stripped == "{"
    requires forall i :: 0 <= i < |middle| ==> !StartsWith(middle[i].stripped, "}")
    requires StartsWith(close.stripped, "}")
    ensures RunFrom(Machine(1, None, []), [open] + middle + [close], keepStray)
      == Ran(Machine(1, None, []), [Join(" ", [open.raw] + StrippedOf(middle) + [close.stripped])], |middle| + 2)
  {
    var m := Machine(1, None, []);
    assert !StationStart(open.stripped) && !NeededStart(open.stripped);
    assert [open][..0] == [];
    var started := Machine(4, Some(BraceEnd), [open.raw]);
    assert RunFrom(m, [open], keepStray) == Ran(started, [], 0);
    Accumulates(started, middle, keepStray);
    RunConcat(m, [open], middle, keepStray);
    RunConcat(m, [open] + middle, [close], keepStray);
    assert [close][..0] == [];
  }

  /** Outside any array, a line that opens none is passed through unchanged. */
  lemma OtherLinePasses(m: Machine, line: Line, keepStray: bool)
    requires m.endRe.None? && m.state != 1
    requires !StationStart(line.stripped) && !NeededStart(line.stripped)
    ensures Step(m, line, keepStray) == Stepped(m.(state := 0), [line.raw], 1)
  {
  }

  const EmptyCapacity: string := "\"neededCapacity\": [],"

  /** The line of an empty capacity array is its own `strip()` and opens a capacity array. */
  lemma EmptyCapacityOpens()
    ensures Strip(EmptyCapacity) == EmptyCapacity && NeededStart(EmptyCapacity) && !StationStart(EmptyCapacity)
  {
    EmptyCapacityStripped();
    EmptyCapacityNeeded();
    NotStartingAt1(EmptyCapacity, "\"stations\": [");
    NotStartingAt1(EmptyCapacity, "\"pathSuggestion\": [");
  }

  lemma EmptyCapacityStripped()
    ensures Strip(EmptyCapacity) == EmptyCapacity
  {
    assert EmptyCapacity[0] == '"' && EmptyCapacity[|EmptyCapacity| - 1] == ',';
    StripUnchanged(EmptyCapacity);
  }

  lemma EmptyCapacityNeeded()
    ensures NeededStart(EmptyCapacity)
  {
    assert EmptyCapacity[..|"\"neededCapacity\": ["|] == "\"neededCapacity\": [";
  }

  /** A string does not start with a prefix whose second character differs from its own. */
  lemma NotStartingAt1(s: string, prefix: string)
    requires |s| >= 2 && |prefix| >= 2 && s[1] != prefix[1]
    ensures !StartsWith(s, prefix)
  {
    if |prefix| <= |s| {
      assert s[..|prefix|][1] == s[1];
    }
  }

  /** Inside a capacity array, outside any entry, a line that neither opens an entry nor closes the array. */
  predicate Stray(s: string)
  {
    !StationStart(s) && !NeededStart(s) && s != "{" && !StartsWith(s, "]")
  }

  /** A stray line inside a capacity array is dropped as written, and passed through when kept. */
  lemma StrayLine(line: Line, keepStray: bool)
    requires Stray(line.stripped)
    ensures Step(Machine(1, None, []), line, keepStray)
      == Stepped(Machine(1, None, []), if keepStray then [line.raw] else [], if keepStray then 1 else 0)
  {
  }

  /** A line that opens a capacity array and closes it again, followed by one stray line. */
  lemma OpenedThenStray(first: string, second: Line, keepStray: bool)
    requires NeededStart(first) && !StationStart(first)
    requires Stray(second.stripped)
    ensures !keepStray ==> RunFrom(Initial, [Line(first, first), second], keepStray).out == [first]
    ensures keepStray ==> RunFrom(Initial, [Line(first, first), second], keepStray).out == [first, second.raw]
  {
    var line := Line(first, first);
    assert [line, second][..1] == [line];
    assert [line][..0] == [];
    assert RunFrom(Initial, [line], keepStray) == Ran(Machine(1, None, []), [first], 1);
    StrayLine(second, keepStray);
    assert [first] + [second.raw] == [first, second.raw];
  }

  lemma LinesOfPair(a: string, b: string)
    ensures Lines([a, b]) == [Line(a, Strip(a)), Line(b, Strip(b))]
  {
    var r := Lines([a, b]);
    assert |r| == 2 && r[0] == Line(a, Strip(a)) && r[1] == Line(b, Strip(b));
  }

  /**
   * `json.dumps` writes an empty list on one line, so the line of an empty capacity array opens
   * state 1 and no line closes it; the next ordinary line is lost.
   */
  lemma EmptyCapacityLosesLine(next: string)
    requires Stray(Strip(next))
    ensures FormatAsWritten([EmptyCapacity, next]) == [EmptyCapacity]
  {
    EmptyCapacityOpens();
    LinesOfPair(EmptyCapacity, next);
    OpenedThenStray(EmptyCapacity, Line(next, Strip(next)), false);
  }

  /** The same next line survives the corrected pass. */
  lemma EmptyCapacityKeepsLine(next: string)
    requires Stray(Strip(next))
    ensures Format([EmptyCapacity, next]) == [EmptyCapacity, next]
  {
    EmptyCapacityOpens();
    LinesOfPair(EmptyCapacity, next);
    OpenedThenStray(EmptyCapacity, Line(next, Strip(next)), true);
  }

  /**
   * Every line consumed is held by an output line, waiting in the accumulator, or (only in the
   * as-written pass) lost; the accumulator is empty whenever no accumulation is open.
   */
  lemma {:induction false} EveryLineAccounted(m: Machine, lines: seq<Line>, keepStray: bool)
    requires m.endRe.None? ==> m.acc == []
    ensures var r := RunFrom(m, lines, keepStray);
      (r.machine.endRe.None? ==> r.machine.acc == [])
      && r.held + |r.machine.acc| <= |m.acc| + |lines|
      && (keepStray ==> r.held + |r.machine.acc| == |m.acc| + |lines|)
  {
    if lines != [] {
      var init := lines[..|lines| - 1];
      EveryLineAccounted(m, init, keepStray);
      var before := RunFrom(m, init, keepStray);
      StepAccounts(before.machine, lines[|lines| - 1], keepStray);
    }
  }

  /** One step holds or keeps accumulating its line, except a stray line dropped as written. */
  lemma StepAccounts(m: Machine, line: Line, keepStray: bool)
    requires m.endRe.None? ==> m.acc == []
    ensures var st := Step(m, line, keepStray);
      (st.machine.endRe.None? ==> st.machine.acc == [])
      && st.held + |st.machine.acc| <= |m.acc| + 1
      && (keepStray ==> st.held + |st.machine.acc| == |m.acc| + 1)
  {
  }

  /** With stray lines kept, no input line is lost: each is in the output or still accumulating. */
  lemma FormatKeepsEveryLine(texts: seq<string>)
    ensures var r := RunFrom(Initial, Lines(texts), true);
      r.held + |r.machine.acc| == |texts|
  {
    EveryLineAccounted(Initial, Lines(texts), true);
  }

  /** The body of `format_json`'s loop for one line, given with its `strip()`; returns the lines it appends to `lines`. */
  method FeedLine(state: int, endRe: Option<End>, acc: seq<string>, line: string, s: string, keepStray: bool)
    returns (state': int, endRe': Option<End>, acc': seq<string>, emitted: seq<string>)
    ensures var st := Step(Machine(state, endRe, acc), Line(line, s), keepStray);
      st.machine == Machine(state', endRe', acc') && st.emitted == emitted
  {
    state', endRe', acc', emitted := state, endRe, acc, [];
    if endRe.None? {
      if StationStart(s) {
        acc' := acc + [line];
        endRe' := Some(BracketEnd);
      } else if NeededStart(s) {
        state' := 1;
        emitted := [line];
      } else if state == 1 {
        if s == "{" {
          state' := 4;
          endRe' := Some(BraceEnd);
          acc' := acc + [line];
          assert s[0] == '{';
        }
        if StartsWith(s, "]") {
          emitted := [line];
          state' := 0;
        } else if s != "{" && keepStray {
          emitted := [line];
        }
      } else {
        state' := 0;
        emitted := [line];
      }
    } else {
      acc' := acc + [s];
      if Ends(endRe.value, s) {
        emitted := [Join(" ", acc')];
        acc' := [];
        endRe' := None;
        if state == 4 {
          state' := 1;
        } else {
          state' := 0;
        }
      }
    }
  }

  lemma LinesSnoc(texts: seq<string>, i: nat)
    requires i < |texts|
    ensures Lines(texts[..i + 1]) == Lines(texts[..i]) + [Line(texts[i], Strip(texts[i]))]
  {
    assert texts[..i + 1][..i] == texts[..i];
  }

  /** One turn of `format_json`'s loop is one more step of the run. */
  lemma RunOneMore(texts: seq<string>, i: nat, m: Machine, out: seq<string>, held: nat, keepStray: bool)
    requires i < |texts|
    requires RunFrom(Initial, Lines(texts[..i]), keepStray) == Ran(m, out, held)
    ensures var st := Step(m, Line(texts[i], Strip(texts[i])), keepStray);
      RunFrom(Initial, Lines(texts[..i + 1]), keepStray) == Ran(st.machine, out + st.emitted, held + st.held)
  {
    var lines, line := Lines(texts[..i]), Line(texts[i], Strip(texts[i]));
    LinesSnoc(texts, i);
    RunSnoc(Initial, lines, line, keepStray);
    assert RunFrom(Initial, Lines(texts[..i + 1]), keepStray) == RunFrom(Initial, lines + [line], keepStray);
  }

  /** The loop of `format_json`; `keepStray` selects the corrected handling of stray capacity lines. */
  method FormatLines(texts: seq<string>, keepStray: bool) returns (out: seq<string>)
    ensures out == RunFrom(Initial, Lines(texts), keepStray).out
  {
    out := [];
    var acc: seq<string> := [];
    var endRe: Option<End> := None;
    var state := 0;
    ghost var held: nat := 0;
    for i := 0 to |texts|
      invariant RunFrom(Initial, Lines(texts[..i]), keepStray) == Ran(Machine(state, endRe, acc), out, held)
    {
      var line := texts[i];
      var s := Strip(line);
      ghost var step := Step(Machine(state, endRe, acc), Line(line, s), keepStray);
      RunOneMore(texts, i, Machine(state, endRe, acc), out, held, keepStray);
      var emitted;
      state, endRe, acc, emitted := FeedLine(state, endRe, acc, line, s, keepStray);
      out := out + emitted;
      held := held + step.held;
    }
    assert texts[..|texts|] == texts;
  }
}
