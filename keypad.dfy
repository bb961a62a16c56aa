/**
 * The dial pad (components/Keypad.tsx): a text buffer of at most 15 characters, filled by
 * the twelve keys and shortened by the delete button; the message and call actions hand the
 * buffer to the parent and are disabled while it is empty.
 */
module Keypad {
  import opened Options

  /** One key of the grid: the character it types and the letters printed under it. */
  datatype Key = Key(val: string, sub: string)

  const KEYS: seq<Key> := [
    Key("1", ""), Key("2", "ABC"), Key("3", "DEF"),
    Key("4", "GHI"), Key("5", "JKL"), Key("6", "MNO"),
    Key("7", "PQRS"), Key("8", "TUV"), Key("9", "WXYZ"),
    Key("*", ""), Key("0", "+"), Key("#", "")
  ]

  /** The longest input a press may extend: a press is accepted while the length is below it. */
  const MAX_INPUT: nat := 15

  /** The characters printed on the keys: the ten digits, `*` and `#`. */
  predicate IsDialChar(c: char) {
    '0' <= c <= '9' || c == '*' || c == '#'
  }

  /** The value a key press passes to the buffer is always the `val` of one of the keys. */
  predicate IsKeyValue(val: string) {
    exists i :: 0 <= i < |KEYS| && KEYS[i].val == val
  }

  /** What the buffer can hold: at most 15 characters, each typed by some key. */
  ghost predicate WellFormed(input: string) {
    |input| <= MAX_INPUT && forall i :: 0 <= i < |input| ==> IsDialChar(input[i])
  }

  /** Every key types exactly one dial character. */
  lemma KeysTypeOneDialChar()
    ensures forall i :: 0 <= i < |KEYS| ==> |KEYS[i].val| == 1 && IsDialChar(KEYS[i].val[0])
  {
  }

  /** Every dial character has a key that types it. */
  lemma EveryDialCharHasKey()
    ensures forall c :: IsDialChar(c) ==> IsKeyValue([c])
  {
    forall c | IsDialChar(c) ensures IsKeyValue([c]) {
      var k := if c == '0' then 10 else if c == '*' then 9 else if c == '#' then 11
               else c as int - '1' as int;
      assert KEYS[k].val == [c];
    }
  }

  /** `handlePress`: the new buffer after one key press. */
  function Pressed(input: string, val: string): (r: string)
    ensures |input| < MAX_INPUT ==> r == input + val
    ensures |input| >= MAX_INPUT ==> r == input
  {
    if |input| < MAX_INPUT then input + val else input
  }

  /** `handleDelete`: `slice(0, -1)` drops the last character, and leaves an empty buffer empty. */
  function Deleted(input: string): (r: string)
    ensures input == [] ==> r == []
    ensures input != [] ==> |r| == |input| - 1 && r + [input[|input| - 1]] == input
  {
    if input == [] then [] else input[..|input| - 1]
  }

  /** A press keeps the buffer well formed, so no sequence of presses and deletes exceeds 15. */
  lemma PressKeepsWellFormed(input: string, val: string)
    requires WellFormed(input) && IsKeyValue(val)
    ensures WellFormed(Pressed(input, val))
    ensures |Pressed(input, val)| <= |input| + 1
  {
    KeysTypeOneDialChar();
    var i :| 0 <= i < |KEYS| && KEYS[i].val == val;
    assert |val| == 1 && IsDialChar(val[0]);
  }

  lemma DeleteKeepsWellFormed(input: string)
    requires WellFormed(input)
    ensures WellFormed(Deleted(input))
  {
  }

  /** Below the cap, a press followed by a delete gives back the buffer it started from. */
  lemma DeleteUndoesPress(input: string, val: string)
    requires |input| < MAX_INPUT && IsKeyValue(val)
    ensures Deleted(Pressed(input, val)) == input
  {
    KeysTypeOneDialChar();
    var i :| 0 <= i < |KEYS| && KEYS[i].val == val;
    assert |val| == 1;
  }

  /** The two action buttons under the keys. */
  datatype Button = MessageButton | CallButton

  /** A callback invocation: which button fired, with the dialled number. */
  datatype Request = Request(button: Button, number: string)

  /** The state of the dial pad: the single `input` state field. */
  class DialPad {
    var input: string

    ghost predicate Valid()
      reads this
    {
      WellFormed(input)
    }

    constructor ()
      ensures Valid() && input == ""
    {
      input := "";
    }

    /** A key button was clicked. */
    method Press(val: string)
      requires Valid() && IsKeyValue(val)
      modifies this
      ensures Valid()
      ensures input == Pressed(old(input), val)
    {
      PressKeepsWellFormed(input, val);
      input := Pressed(input, val);
    }

    /** The delete button was clicked. */
    method Delete()
      requires Valid()
      modifies this
      ensures Valid()
      ensures input == Deleted(old(input))
    {
      input := Deleted(input);
    }

    /**
     * The message and call buttons: both are disabled (None) while the buffer
     * is empty; an enabled button hands the buffer to its own callback.
     */
    method Submit(button: Button) returns (request: Option<Request>)
      ensures request.None? <==> input == ""
      ensures request.Some? ==> request.value.button == button && request.value.number == input
    {
      request := if input == "" then None else Some(Request(button, input));
    }
  }
}
