/** Removing white space from both ends of a text, for any notion of white space. */
module Trimming {
  /** The characters String.prototype.trim removes. */
  predicate JsSpace(c: char) {
    var n := c as int;
    || 0x09 <= n <= 0x0D || n == 0x20 || n == 0xA0 || n == 0x1680 || 0x2000 <= n <= 0x200A
    || n == 0x2028 || n == 0x2029 || n == 0x202F || n == 0x205F || n == 0x3000 || n == 0xFEFF
  }

  function Trim(s: string, space: char -> bool): string {
    if s != "" && space(s[0]) then Trim(s[1..], space)
    else if s != "" && space(s[|s| - 1]) then Trim(s[..|s| - 1], space)
    else s
  }

  predicate AllSpace(s: string, space: char -> bool) {
    forall i :: 0 <= i < |s| ==> space(s[i])
  }

  /** Neither end is white space. */
  predicate Tight(s: string, space: char -> bool) {
    s != "" ==> !space(s[0]) && !space(s[|s| - 1])
  }

  /** Trimming takes white space off both ends, and leaves none there. */
  lemma {:induction false} TrimSplits(s: string, space: char -> bool) returns (front: string, back: string)
    ensures s == front + Trim(s, space) + back && Tight(Trim(s, space), space)
    ensures AllSpace(front, space) && AllSpace(back, space)
  {
    front, back := "", "";
    if s != "" && space(s[0]) {
      front, back := TrimSplits(s[1..], space);
      front := [s[0]] + front;
    } else if s != "" && space(s[|s| - 1]) {
      front, back := TrimSplits(s[..|s| - 1], space);
      assert s == s[..|s| - 1] + [s[|s| - 1]];
      back := back + [s[|s| - 1]];
    }
  }

  /** White space at either end makes no difference. */
  lemma {:induction false} TrimOf(front: string, core: string, back: string, space: char -> bool)
    requires AllSpace(front, space) && AllSpace(back, space) && Tight(core, space)
    ensures Trim(front + core + back, space) == core
    decreases |front| + |back|
  {
    var s := front + core + back;
    if front != "" {
      assert s[0] == front[0] && s[1..] == front[1..] + core + back;
      TrimOf(front[1..], core, back, space);
    } else if back != "" {
      var init := back[..|back| - 1];
      assert s[|s| - 1] == back[|back| - 1] && s[..|s| - 1] == "" + core + init;
      TrimOf("", core, init, space);
      if space(s[0]) {
        if core == "" {
          assert s == back && s[1..] == "" + core + back[1..];
          TrimOf("", core, back[1..], space);
        }
      }
    } else {
      assert s == core;
    }
  }
}
