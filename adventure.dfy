/**
 * The part of the Adventure text-component library the builder relies on.
 * A component is reduced to its literal text content and the state of its
 * italic decoration; children, colours and the other decorations are not
 * modelled.
 */
module Adventure {

  /** `TextDecoration.State`: explicitly on, explicitly off, or inherited from the parent. */
  datatype DecorationState = NotSet | True | False

  /** A flat text component. */
  datatype Component = Component(content: string, italic: DecorationState)

  /**
   * `decorationIfAbsent(ITALIC, state)`: fills in `state` only where the
   * component left italic unset; an explicit italic is kept.
   */
  function DecorationIfAbsent(c: Component, state: DecorationState): (r: Component)
    ensures r.content == c.content
    ensures c.italic != NotSet ==> r == c
    ensures c.italic == NotSet ==> r.italic == state
  {
    if c.italic == NotSet then c.(italic := state) else c
  }

  /** Filling in a default twice is the same as filling it in once. */
  lemma DecorationIfAbsentIdempotent(c: Component, state: DecorationState)
    ensures DecorationIfAbsent(DecorationIfAbsent(c, state), state) == DecorationIfAbsent(c, state)
  {
  }

  const NEWLINE: char := '\n'

  /**
   * `replaceText { matchLiteral("\n"); replacement("") }` on the text content:
   * every newline goes, every other character stays.
   */
  function RemoveNewlines(s: string): (r: string)
    ensures NEWLINE !in r
    ensures multiset(r) == multiset(s)[NEWLINE := 0]
    ensures NEWLINE !in s ==> r == s
  {
    if s == [] then []
    else
      assert s == [s[0]] + s[1..];
      if s[0] == NEWLINE then RemoveNewlines(s[1..])
      else [s[0]] + RemoveNewlines(s[1..])
  }

  /** Removing newlines works piecewise, so the kept characters stay in their original order. */
  lemma {:induction false} RemoveNewlinesConcat(a: string, b: string)
    ensures RemoveNewlines(a + b) == RemoveNewlines(a) + RemoveNewlines(b)
  {
    if a == [] {
      assert a + b == b;
    } else {
      assert (a + b)[0] == a[0];
      assert (a + b)[1..] == a[1..] + b;
      RemoveNewlinesConcat(a[1..], b);
    }
  }
}
