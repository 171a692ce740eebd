/**
 * Keyboard input: the shared set of held keys (lower-cased key names) that the
 * key-down and key-up handlers update in place, and the pure queries that turn
 * that set into left / right / jump intentions.
 */
module Input {

  /** Lower-cases ASCII letters; every other character is kept. */
  function ToLowerChar(c: char): (r: char)
    ensures 'A' <= c <= 'Z' ==> 'a' <= r <= 'z' && r as int == c as int + 32
    ensures !('A' <= c <= 'Z') ==> r == c
  {
    if 'A' <= c <= 'Z' then (c as int - 'A' as int + 'a' as int) as char else c
  }

  function ToLower(s: string): (r: string)
    ensures |r| == |s| && forall i :: 0 <= i < |s| ==> r[i] == ToLowerChar(s[i])
  {
    seq(|s|, i requires 0 <= i < |s| => ToLowerChar(s[i]))
  }

  /** Lower-casing twice is lower-casing once. */
  lemma ToLowerIdempotent(s: string)
    ensures ToLower(ToLower(s)) == ToLower(s)
  {
  }

  /** Keys whose default browser action is suppressed. */
  const PREVENT_DEFAULT_KEYS: seq<string> :=
    ["arrowup", "arrowdown", "arrowleft", "arrowright", " ", "w", "a", "s", "d"]

  /** The handlers' shared set of held keys. */
  class KeyboardHandlers {
    var keysPressed: set<string>

    constructor (keysPressed: set<string>)
      ensures this.keysPressed == keysPressed
    {
      this.keysPressed := keysPressed;
    }

    /** Records the lower-cased key as held; reports whether the default action is prevented. */
    method HandleKeyDown(eventKey: string) returns (preventDefault: bool)
      modifies this
      ensures keysPressed == old(keysPressed) + {ToLower(eventKey)}
      ensures preventDefault <==> ToLower(eventKey) in PREVENT_DEFAULT_KEYS
    {
      var key := ToLower(eventKey);
      keysPressed := keysPressed + {key};
      preventDefault := key in PREVENT_DEFAULT_KEYS;
    }

    /** Forgets the lower-cased key. */
    method HandleKeyUp(eventKey: string)
      modifies this
      ensures keysPressed == old(keysPressed) - {ToLower(eventKey)}
    {
      keysPressed := keysPressed - {ToLower(eventKey)};
    }
  }

  /**
   * Pressing and releasing a key leaves it absent and every other key as it
   * was, whichever letter case the release event carries.
   */
  method PressAndRelease(h: KeyboardHandlers, down: string, up: string)
    requires ToLower(down) == ToLower(up)
    modifies h
    ensures h.keysPressed == old(h.keysPressed) - {ToLower(down)}
    ensures forall k :: k != ToLower(down) ==> (k in h.keysPressed <==> k in old(h.keysPressed))
  {
    var _ := h.HandleKeyDown(down);
    h.HandleKeyUp(up);
  }

  datatype PlayerInput = PlayerInput(left: bool, right: bool, jump: bool)

  function GetPlayerInput(keysPressed: set<string>): PlayerInput
  {
    PlayerInput(
      "a" in keysPressed || "arrowleft" in keysPressed,
      "d" in keysPressed || "arrowright" in keysPressed,
      "w" in keysPressed || "arrowup" in keysPressed || " " in keysPressed)
  }

  predicate IsLeftPressed(keysPressed: set<string>)
  {
    "a" in keysPressed || "arrowleft" in keysPressed
  }

  predicate IsRightPressed(keysPressed: set<string>)
  {
    "d" in keysPressed || "arrowright" in keysPressed
  }

  predicate IsJumpPressed(keysPressed: set<string>)
  {
    "w" in keysPressed || "arrowup" in keysPressed || " " in keysPressed
  }

  /** The single queries agree with the fields of the combined query. */
  lemma QueriesAgreeWithInput(keysPressed: set<string>)
    ensures GetPlayerInput(keysPressed).left == IsLeftPressed(keysPressed)
    ensures GetPlayerInput(keysPressed).right == IsRightPressed(keysPressed)
    ensures GetPlayerInput(keysPressed).jump == IsJumpPressed(keysPressed)
  {
  }

  /**
   * Key-down of "A", "ArrowLeft", "D", "ArrowRight", "W", "ArrowUp" or " " makes
   * the matching query true, whatever else is held, and a held set without any
   * of the seven names steers nothing.
   */
  lemma {:induction false} KeyDownSteers(keysPressed: set<string>)
    ensures IsLeftPressed(keysPressed + {ToLower("A")}) && IsLeftPressed(keysPressed + {ToLower("ArrowLeft")})
    ensures IsRightPressed(keysPressed + {ToLower("D")}) && IsRightPressed(keysPressed + {ToLower("ArrowRight")})
    ensures IsJumpPressed(keysPressed + {ToLower("W")}) && IsJumpPressed(keysPressed + {ToLower("ArrowUp")})
    ensures IsJumpPressed(keysPressed + {ToLower(" ")})
    ensures (forall k :: k in keysPressed ==> k !in {"a", "arrowleft", "d", "arrowright", "w", "arrowup", " "})
            ==> GetPlayerInput(keysPressed) == PlayerInput(false, false, false)
  {
    LowerKeyNames();
  }

  /** The lower-case forms of the key names the browser reports for the steering keys. */
  lemma LowerKeyNames()
    ensures ToLower("A") == "a" && ToLower("D") == "d" && ToLower("W") == "w" && ToLower(" ") == " "
    ensures ToLower("ArrowLeft") == "arrowleft"
    ensures ToLower("ArrowRight") == "arrowright"
    ensures ToLower("ArrowUp") == "arrowup"
  {
  }
}
