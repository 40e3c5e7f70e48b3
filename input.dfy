/**
 * Keyboard state of client/src/lib/game/Input.ts: three flags that key-down
 * events set and key-up events clear.
 */
module InputModel {

  /** The `{left, right, jump}` flag record. */
  datatype Keys = Keys(left: bool, right: bool, jump: bool)

  const NoKeys: Keys := Keys(false, false, false)

  predicate IsLeftKey(key: string)
  {
    key == "ArrowLeft" || key == "a" || key == "A"
  }

  predicate IsRightKey(key: string)
  {
    key == "ArrowRight" || key == "d" || key == "D"
  }

  predicate IsJumpKey(key: string)
  {
    key == "ArrowUp" || key == "w" || key == "W" || key == " "
  }

  /** The switch of `handleKeyDown`: a mapped key sets its flag, any other key does nothing. */
  function KeyDown(k: Keys, key: string): (r: Keys)
    ensures IsLeftKey(key) ==> r.left && r.right == k.right && r.jump == k.jump
    ensures IsRightKey(key) ==> r.right && r.left == k.left && r.jump == k.jump
    ensures IsJumpKey(key) ==> r.jump && r.left == k.left && r.right == k.right
    ensures !IsLeftKey(key) && !IsRightKey(key) && !IsJumpKey(key) ==> r == k
  {
    if IsLeftKey(key) then k.(left := true)
    else if IsRightKey(key) then k.(right := true)
    else if IsJumpKey(key) then k.(jump := true)
    else k
  }

  /** The switch of `handleKeyUp`: a mapped key clears its flag, any other key does nothing. */
  function KeyUp(k: Keys, key: string): (r: Keys)
    ensures IsLeftKey(key) ==> !r.left && r.right == k.right && r.jump == k.jump
    ensures IsRightKey(key) ==> !r.right && r.left == k.left && r.jump == k.jump
    ensures IsJumpKey(key) ==> !r.jump && r.left == k.left && r.right == k.right
    ensures !IsLeftKey(key) && !IsRightKey(key) && !IsJumpKey(key) ==> r == k
  {
    if IsLeftKey(key) then k.(left := false)
    else if IsRightKey(key) then k.(right := false)
    else if IsJumpKey(key) then k.(jump := false)
    else k
  }

  /** Releasing a key undoes pressing it: the pressed flag is gone, the other two are as before. */
  lemma ReleaseUndoesPress(k: Keys, key: string)
    ensures KeyUp(KeyDown(k, key), key) == KeyUp(k, key)
    ensures IsLeftKey(key) || IsRightKey(key) || IsJumpKey(key) ==> KeyDown(KeyUp(k, key), key) == KeyDown(k, key)
  {
  }

  /** Every key sets at most one flag, and the three key groups are disjoint. */
  lemma KeyGroupsDisjoint(key: string)
    ensures !(IsLeftKey(key) && IsRightKey(key))
    ensures !(IsLeftKey(key) && IsJumpKey(key))
    ensures !(IsRightKey(key) && IsJumpKey(key))
  {
  }

  class Input {
    var keys: Keys

    /** All three flags start false (the DOM listeners are not modelled). */
    constructor ()
      ensures keys == NoKeys
    {
      keys := NoKeys;
    }

    method HandleKeyDown(key: string)
      modifies this
      ensures keys == KeyDown(old(keys), key)
    {
      if key == "ArrowLeft" || key == "a" || key == "A" {
        keys := keys.(left := true);
      } else if key == "ArrowRight" || key == "d" || key == "D" {
        keys := keys.(right := true);
      } else if key == "ArrowUp" || key == "w" || key == "W" || key == " " {
        keys := keys.(jump := true);
      }
    }

    method HandleKeyUp(key: string)
      modifies this
      ensures keys == KeyUp(old(keys), key)
    {
      if key == "ArrowLeft" || key == "a" || key == "A" {
        keys := keys.(left := false);
      } else if key == "ArrowRight" || key == "d" || key == "D" {
        keys := keys.(right := false);
      } else if key == "ArrowUp" || key == "w" || key == "W" || key == " " {
        keys := keys.(jump := false);
      }
    }

    /** `getInput` hands out the current flag record. */
    function GetInput(): (r: Keys)
      reads this
      ensures r.left == keys.left && r.right == keys.right && r.jump == keys.jump
    {
      keys
    }
  }
}
