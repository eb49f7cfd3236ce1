/**
  The validation rules of the input widgets (bingo_maker/ui/widgets.py):
  the validity flag every widget carries and the event it raises when the
  flag changes, the keystroke validators of the text entry and of the
  numeric spinbox, the spinbox's arrow-click check, and the forced
  selection of the yes/no selector when one of its options is disabled.
  Error messages are modelled by kind (with the bound they quote), not by
  their display text.
 */
module Widgets {
  import opened Wrappers

  // ---------------------------------------------------------------------------
  // ValidatableFrame: the validity flag and its change event
  // ---------------------------------------------------------------------------

  /** Number of adjacent positions of `h` holding different values. */
  function Changes(h: seq<bool>): nat
  {
    if |h| < 2 then 0
    else Changes(h[..|h| - 1]) + (if h[|h| - 2] != h[|h| - 1] then 1 else 0)
  }

  /** A history of `n` values changes at most `n - 1` times. */
  lemma {:induction false} ChangesBound(h: seq<bool>)
    requires |h| >= 1
    ensures Changes(h) <= |h| - 1
  {
    if |h| >= 2 {
      ChangesBound(h[..|h| - 1]);
    }
  }

  /** A history that keeps one value throughout never changes. */
  lemma {:induction false} ConstantHistoryNoChanges(h: seq<bool>, v: bool)
    requires forall i | 0 <= i < |h| :: h[i] == v
    ensures Changes(h) == 0
  {
    if |h| >= 2 {
      ConstantHistoryNoChanges(h[..|h| - 1], v);
    }
  }

  /**
    The validity part shared by every input widget: a flag, initially false,
    and the number of `<<ValidityChanged>>` events generated so far. The
    ghost `history` holds the flag's value at construction and after every
    `_set_validity`; the invariant is that one event was raised per change.
   */
  class ValidatableFrame {
    var isValid: bool
    var validityEvents: nat
    ghost var history: seq<bool>

    ghost predicate Valid()
      reads this
    {
      && |history| >= 1
      && history[|history| - 1] == isValid
      && validityEvents == Changes(history)
    }

    constructor ()
      ensures Valid()
      ensures !isValid && validityEvents == 0 && history == [false]
    {
      isValid := false;
      validityEvents := 0;
      history := [false];
    }

    /**
      `_set_validity`: the flag becomes `v`, and an event is raised exactly
      when that changes it; setting the value it already has changes nothing.
     */
    method SetValidity(v: bool)
      requires Valid()
      modifies this
      ensures Valid()
      ensures isValid == v
      ensures history == old(history) + [v]
      ensures validityEvents == old(validityEvents) + (if old(isValid) != v then 1 else 0)
      ensures old(isValid) == v ==> validityEvents == old(validityEvents)
    {
      ghost var h := history + [v];
      assert h[..|h| - 1] == history;
      if isValid != v {
        isValid := v;
        validityEvents := validityEvents + 1;
      }
      history := h;
    }
  }

  // ---------------------------------------------------------------------------
  // Error messages
  // ---------------------------------------------------------------------------

  /**
    The error message a widget shows, by kind: none (the empty string),
    'empty', 'not_integer', 'not_float', and 'too_small' / 'too_big' with
    the bound they quote.
   */
  datatype Message =
    | NoMessage
    | EmptyInput
    | NotInteger
    | NotFloat
    | TooSmall(from: real)
    | TooBig(to: real)

  // ---------------------------------------------------------------------------
  // LabelEntry
  // ---------------------------------------------------------------------------

  /** A labelled text entry that must not be left empty. */
  class LabelEntry {
    const frame: ValidatableFrame
    var errorMessage: Message

    ghost predicate Valid()
      reads this, frame
    {
      frame.Valid()
    }

    /** `LabelEntry.__init__`: the default text is validated like a keystroke. */
    constructor (default: string)
      ensures Valid() && fresh(frame)
      ensures frame.isValid == (default != [])
      ensures errorMessage == (if default == [] then EmptyInput else NoMessage)
      ensures frame.validityEvents == (if frame.isValid then 1 else 0)
    {
      frame := new ValidatableFrame();
      errorMessage := NoMessage;
      new;
      var _ := Validate(default);
    }

    /**
      `_validate`: every keystroke is accepted (the entry may be emptied);
      the entry is valid exactly when the proposed text is non-empty, and
      the message is empty exactly when it is valid.
     */
    method Validate(proposed: string) returns (accept: bool)
      requires Valid()
      modifies frame, this
      ensures Valid()
      ensures accept
      ensures frame.isValid <==> proposed != []
      ensures errorMessage == NoMessage <==> frame.isValid
      ensures errorMessage == (if proposed == [] then EmptyInput else NoMessage)
      ensures frame.validityEvents == old(frame.validityEvents) + (if old(frame.isValid) != (proposed != []) then 1 else 0)
    {
      var isValid := proposed != [];
      frame.SetValidity(isValid);
      errorMessage := if isValid then NoMessage else EmptyInput;
      accept := true;
    }
  }

  // ---------------------------------------------------------------------------
  // LabelSpinbox
  // ---------------------------------------------------------------------------

  /** A value Python's `float()` can produce: a finite number, not-a-number, or an infinity. */
  datatype Float = Finite(v: real) | NaN | Infinity(negative: bool)

  /** `x.is_integer()` for a finite `x`. */
  predicate IsIntegral(x: real)
  {
    x.Floor as real == x
  }

  /** `float.is_integer()`: false for not-a-number and the infinities. */
  predicate IsInteger(x: Float)
  {
    x.Finite? && IsIntegral(x.v)
  }

  /** Python's `x < bound` for a float `x` and a finite bound. */
  predicate Below(x: Float, bound: real)
  {
    match x
    case Finite(v) => v < bound
    case NaN => false
    case Infinity(negative) => negative
  }

  /** Python's `x > bound` for a float `x` and a finite bound. */
  predicate Above(x: Float, bound: real)
  {
    match x
    case Finite(v) => v > bound
    case NaN => false
    case Infinity(negative) => !negative
  }

  /** `int(x)`: truncation toward zero. */
  function Trunc(x: real): int
  {
    if x >= 0.0 then x.Floor else -((-x).Floor)
  }

  /** `int(x)` keeps exactly the integral values. */
  lemma TruncExact(x: real)
    ensures Trunc(x) as real == x <==> IsIntegral(x)
  {
    if x < 0.0 {
      assert IsIntegral(x) <==> IsIntegral(-x) by {
        if IsIntegral(x) {
          assert (-x).Floor == -(x.Floor);
        }
        if IsIntegral(-x) {
          assert x.Floor == -((-x).Floor);
        }
      }
    }
  }

  /** The spinbox holds an integer variable exactly when the default, both bounds and the step are integral. */
  predicate IntMode(default: real, from: real, to: real, increment: real)
  {
    IsIntegral(default) && IsIntegral(from) && IsIntegral(to) && IsIntegral(increment)
  }

  /**
    The initial value of the spinbox variable, `IntVar(int(default))` or
    `DoubleVar(default)`: in either mode it is exactly the default, since
    integer mode is only chosen for an integral default.
   */
  function InitialValue(default: real, from: real, to: real, increment: real): (r: real)
    ensures r == default
  {
    if IntMode(default, from, to, increment) then
      TruncExact(default);
      Trunc(default) as real
    else
      default
  }

  /**
    What a validator does: whether the keystroke is accepted, the new
    validity (`None` when it is left as it was) and the message shown.
   */
  datatype Decision = Decision(accept: bool, validity: Option<bool>, message: Message)

  /**
    `_validate_on_input` from the point where the input has parsed to the
    float `x`: a non-integer in integer mode is rejected with validity left
    alone; otherwise the keystroke is accepted, and the value is too small,
    too big (checked in that order) or valid.
   */
  function NumberDecision(x: Float, intMode: bool, from: real, to: real): (d: Decision)
    ensures !d.accept <==> intMode && !IsInteger(x)
    ensures !d.accept ==> d.validity.None? && d.message == NotInteger
    ensures d.accept ==> d.validity == Some(!Below(x, from) && !Above(x, to))
    ensures d.accept ==> (d.message == NoMessage <==> d.validity == Some(true))
    ensures d.accept && Below(x, from) ==> d.message == TooSmall(from)
    ensures d.accept && !Below(x, from) && Above(x, to) ==> d.message == TooBig(to)
  {
    if intMode && !IsInteger(x) then Decision(false, None, NotInteger)
    else if Below(x, from) then Decision(true, Some(false), TooSmall(from))
    else if Above(x, to) then Decision(true, Some(false), TooBig(to))
    else Decision(true, Some(true), NoMessage)
  }

  /**
    `_validate_on_input`: an empty input is accepted and invalid; an input
    that does not parse is rejected with the mode's message and validity
    left alone; a parsed number goes on to `NumberDecision`. The parser
    stands for Python's `float()`, `None` where it raises `ValueError`.
   */
  function InputDecision(proposed: string, parse: string -> Option<Float>,
                         intMode: bool, from: real, to: real): (d: Decision)
    ensures proposed == [] ==> d == Decision(true, Some(false), EmptyInput)
    ensures proposed != [] && parse(proposed).None? ==>
      d == Decision(false, None, if intMode then NotInteger else NotFloat)
    ensures d.accept <==> proposed == [] || (parse(proposed).Some? && !(intMode && !IsInteger(parse(proposed).value)))
    ensures d.accept <==> d.validity.Some?
    ensures d.validity == Some(true) <==> d.message == NoMessage
  {
    if proposed == [] then Decision(true, Some(false), EmptyInput)
    else if parse(proposed).None? then Decision(false, None, if intMode then NotInteger else NotFloat)
    else NumberDecision(parse(proposed).value, intMode, from, to)
  }

  /** A finite, mode-conforming input is valid exactly when it lies within the bounds. */
  lemma FiniteInputInRange(proposed: string, parse: string -> Option<Float>,
                           intMode: bool, from: real, to: real, v: real)
    requires proposed != [] && parse(proposed) == Some(Finite(v))
    requires !intMode || IsIntegral(v)
    ensures InputDecision(proposed, parse, intMode, from, to).accept
    ensures InputDecision(proposed, parse, intMode, from, to).validity == Some(from <= v && v <= to)
  {
  }

  /** With inverted bounds every number is out of range, and the lower bound is reported first. */
  lemma TooSmallReportedFirst(x: Float, intMode: bool, from: real, to: real)
    requires x.Finite? && to < x.v < from
    requires !intMode || IsInteger(x)
    ensures NumberDecision(x, intMode, from, to) == Decision(true, Some(false), TooSmall(from))
  {
  }

  /**
    Not-a-number compares false with both bounds, so in decimal mode an input
    that parses to it is accepted and makes the spinbox valid; in integer
    mode it is rejected as not an integer. The infinities are out of range.
   */
  lemma NaNInput(proposed: string, parse: string -> Option<Float>, intMode: bool, from: real, to: real)
    requires proposed != [] && parse(proposed) == Some(NaN)
    ensures !intMode ==> InputDecision(proposed, parse, intMode, from, to) == Decision(true, Some(true), NoMessage)
    ensures intMode ==> InputDecision(proposed, parse, intMode, from, to) == Decision(false, None, NotInteger)
  {
  }

  lemma InfinityInput(x: Float, from: real, to: real)
    requires x.Infinity?
    ensures NumberDecision(x, false, from, to).validity == Some(false)
    ensures NumberDecision(x, false, from, to).message == (if x.negative then TooSmall(from) else TooBig(to))
  {
  }

  /** A labelled numeric spinbox with bounds `[from, to]`. */
  class LabelSpinbox {
    const frame: ValidatableFrame
    const from: real
    const to: real
    const intMode: bool
    var value: real
    var errorMessage: Message

    ghost predicate Valid()
      reads this, frame
    {
      frame.Valid()
    }

    /**
      `LabelSpinbox.__init__`: integer mode is chosen when the default, the
      bounds and the step are all integral; the variable starts at the
      default, which is then validated like an input (its text always
      parses back to the default).
     */
    constructor (default: real, from: real, to: real, increment: real)
      ensures Valid() && fresh(frame)
      ensures this.from == from && this.to == to
      ensures intMode <==> IntMode(default, from, to, increment)
      ensures value == default
      ensures frame.isValid <==> from <= default <= to
      ensures errorMessage == NumberDecision(Finite(default), intMode, from, to).message
      ensures frame.validityEvents == (if frame.isValid then 1 else 0)
    {
      frame := new ValidatableFrame();
      this.from := from;
      this.to := to;
      intMode := IntMode(default, from, to, increment);
      value := InitialValue(default, from, to, increment);
      errorMessage := NoMessage;
      new;
      var _ := ValidateNumber(Finite(default));
    }

    /** `_validate_on_input`: the state changes as `InputDecision` says, and nothing else. */
    method ValidateOnInput(proposed: string, parse: string -> Option<Float>) returns (accept: bool)
      requires Valid()
      modifies this, frame
      ensures Valid()
      ensures value == old(value)
      ensures var d := InputDecision(proposed, parse, intMode, from, to);
        && accept == d.accept
        && errorMessage == d.message
        && frame.isValid == (if d.validity.Some? then d.validity.value else old(frame.isValid))
        && (d.validity.None? ==> frame.validityEvents == old(frame.validityEvents))
      ensures frame.validityEvents == old(frame.validityEvents) + (if old(frame.isValid) != frame.isValid then 1 else 0)
    {
      if proposed == [] {
        frame.SetValidity(false);
        errorMessage := EmptyInput;
        return true;
      }
      var parsed := parse(proposed);
      if parsed.None? {
        errorMessage := if intMode then NotInteger else NotFloat;
        return false;
      }
      accept := ValidateNumber(parsed.value);
    }

    /** The numeric part of `_validate_on_input`, once the input has parsed to `x`. */
    method ValidateNumber(x: Float) returns (accept: bool)
      requires Valid()
      modifies this, frame
      ensures Valid()
      ensures value == old(value)
      ensures var d := NumberDecision(x, intMode, from, to);
        && accept == d.accept
        && errorMessage == d.message
        && frame.isValid == (if d.validity.Some? then d.validity.value else old(frame.isValid))
        && (d.validity.None? ==> frame.validityEvents == old(frame.validityEvents))
      ensures frame.validityEvents == old(frame.validityEvents) + (if old(frame.isValid) != frame.isValid then 1 else 0)
    {
      if intMode && !IsInteger(x) {
        errorMessage := NotInteger;
        return false;
      }
      if Below(x, from) {
        errorMessage := TooSmall(from);
        frame.SetValidity(false);
        return true;
      }
      if Above(x, to) {
        errorMessage := TooBig(to);
        frame.SetValidity(false);
        return true;
      }
      frame.SetValidity(true);
      errorMessage := NoMessage;
      return true;
    }

    /**
      `_validate_on_click`: after an arrow click the message is cleared
      exactly when the current value is within the bounds; validity is
      never touched.
     */
    method ValidateOnClick(current: real)
      modifies this
      ensures value == old(value)
      ensures errorMessage == (if from <= current <= to then NoMessage else old(errorMessage))
    {
      if from <= current <= to {
        errorMessage := NoMessage;
      }
    }
  }

  // ---------------------------------------------------------------------------
  // BooleanSelector
  // ---------------------------------------------------------------------------

  /** The two radio buttons of a yes/no selector: `'true'` and `'false'`. */
  datatype ButtonType = TrueButton | FalseButton

  /** The button that shows `value` as selected. */
  function ButtonFor(value: bool): ButtonType
  {
    if value then TrueButton else FalseButton
  }

  /** A yes/no selector; it needs no validation and is valid from the start. */
  class BooleanSelector {
    const frame: ValidatableFrame
    var value: bool
    var disabled: set<ButtonType>

    ghost predicate Valid()
      reads this, frame
    {
      frame.Valid()
    }

    constructor (default: bool)
      ensures Valid() && fresh(frame)
      ensures frame.isValid && frame.validityEvents == 1
      ensures value == default && disabled == {}
    {
      frame := new ValidatableFrame();
      value := default;
      disabled := {};
      new;
      frame.SetValidity(true);
    }

    /** `enable_option`: the button becomes usable again; the selection stays. */
    method EnableOption(button: ButtonType)
      modifies this
      ensures disabled == old(disabled) - {button}
      ensures value == old(value)
    {
      disabled := disabled - {button};
    }

    /**
      `disable_option`: the button is disabled and the selection moves to
      the other button, so the selected button is never the disabled one.
     */
    method DisableOption(button: ButtonType)
      modifies this
      ensures disabled == old(disabled) + {button}
      ensures value <==> button == FalseButton
      ensures ButtonFor(value) != button
    {
      disabled := disabled + {button};
      value := button == FalseButton;
    }
  }
}
