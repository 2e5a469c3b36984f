/** The part of a Selenium driver that the scrapers steer step by step: the list
    `window_handles` (in opening order), the focused window, and `quit`.
    Page content is not modelled here; each scraper receives it as an input. */
module Browser {
  import opened Wrappers

  type Handle = nat

  /** The window-handle state of one driver. `next` is the handle the next opened tab receives. */
  datatype Windows = Windows(handles: seq<Handle>, focus: Handle, next: Handle) {
    /** Handles are distinct and all below `next`. */
    predicate Valid() {
      && (forall i, j :: 0 <= i < j < |handles| ==> handles[i] != handles[j])
      && (forall k :: 0 <= k < |handles| ==> handles[k] < next)
    }

    /** Only the main window is open and it has the focus. */
    predicate Idle(main: Handle) {
      handles == [main] && focus == main
    }
  }

  /** A freshly started driver: one window, focused. */
  function Fresh(): (w: Windows)
    ensures w.Valid() && w.Idle(w.focus)
  {
    Windows([0], 0, 1)
  }

  /** A new tab is added at the end of `window_handles`; the focus does not move. */
  function OpenedTab(w: Windows): (r: Windows)
    ensures w.Valid() ==> r.Valid()
    ensures r.handles == w.handles + [w.next] && r.focus == w.focus
    ensures w.Valid() ==> w.next !in w.handles
  {
    Windows(w.handles + [w.next], w.focus, w.next + 1)
  }

  /** `switch_to.window(h)`: fails with NoSuchWindowException when `h` is not open. */
  function SwitchedTo(w: Windows, h: Handle): (r: Option<Windows>)
    ensures r.Some? <==> h in w.handles
    ensures r.Some? ==> r.value.focus == h && r.value.handles == w.handles && r.value.next == w.next
  {
    if h in w.handles then Some(w.(focus := h)) else None
  }

  /** `s` without the element `x`, order kept. */
  function Without(s: seq<Handle>, x: Handle): (r: seq<Handle>)
    ensures x !in r
    ensures forall y :: y in r <==> y in s && y != x
    ensures |r| <= |s|
  {
    if s == [] then []
    else if s[0] == x then Without(s[1..], x)
    else [s[0]] + Without(s[1..], x)
  }

  /** `close()`: closes the focused window; fails with NoSuchWindowException when it is already closed.
      The focus stays on the closed handle until the next switch. */
  function CloseFocused(w: Windows): (r: Option<Windows>)
    ensures r.Some? <==> w.focus in w.handles
    ensures r.Some? ==> r.value.focus == w.focus && r.value.next == w.next
    ensures r.Some? ==> forall y :: y in r.value.handles <==> y in w.handles && y != w.focus
    ensures r.Some? && w.Valid() ==> r.value.Valid() && |r.value.handles| == |w.handles| - 1
    ensures r.Some? && w.Valid() ==>
      forall i :: 0 <= i < |w.handles| && w.handles[i] == w.focus ==>
        r.value.handles == w.handles[..i] + w.handles[i+1..]
  {
    if w.focus !in w.handles then None
    else if !w.Valid() then Some(w.(handles := Without(w.handles, w.focus)))
    else
      WithoutDistinct(w.handles, w.focus, w.next);
      WithoutKeepsOrder(w.handles, w.focus);
      Some(w.(handles := Without(w.handles, w.focus)))
  }

  /** Removing a handle that occurs once keeps the others in their opening order. */
  lemma {:induction false} WithoutSplice(a: seq<Handle>, x: Handle, b: seq<Handle>)
    requires x !in a && x !in b
    ensures Without(a + [x] + b, x) == a + b
  {
    if a == [] {
      assert (a + [x] + b)[1..] == b;
      WithoutAbsent(b, x);
    } else {
      assert (a + [x] + b)[1..] == a[1..] + [x] + b;
      WithoutSplice(a[1..], x, b);
      assert a + b == [a[0]] + (a[1..] + b);
    }
  }

  /** In a list without repeats, removing `x` deletes exactly its one position. */
  lemma WithoutKeepsOrder(s: seq<Handle>, x: Handle)
    requires forall i, j :: 0 <= i < j < |s| ==> s[i] != s[j]
    ensures forall i :: 0 <= i < |s| && s[i] == x ==> Without(s, x) == s[..i] + s[i+1..]
  {
    forall i | 0 <= i < |s| && s[i] == x
      ensures Without(s, x) == s[..i] + s[i+1..]
    {
      assert s == s[..i] + [x] + s[i+1..];
      assert x !in s[..i] && x !in s[i+1..] by {
        forall k | 0 <= k < |s| && k != i ensures s[k] != x {
          if k < i { assert s[k] != s[i]; } else { assert s[i] != s[k]; }
        }
      }
      WithoutSplice(s[..i], x, s[i+1..]);
    }
  }

  /** Closing the last-opened window gives back the list before it was opened. */
  lemma {:induction false} WithoutLast(s: seq<Handle>, x: Handle)
    requires x !in s
    ensures Without(s + [x], x) == s
  {
    if s != [] {
      assert (s + [x])[1..] == s[1..] + [x];
      WithoutLast(s[1..], x);
    }
  }

  /** Closing preserves validity, and exactly one handle disappears. */
  lemma {:induction false} WithoutDistinct(s: seq<Handle>, x: Handle, bound: nat)
    requires forall i, j :: 0 <= i < j < |s| ==> s[i] != s[j]
    requires forall k :: 0 <= k < |s| ==> s[k] < bound
    requires x in s
    ensures |Without(s, x)| == |s| - 1
    ensures var r := Without(s, x);
      (forall i, j :: 0 <= i < j < |r| ==> r[i] != r[j]) && (forall k :: 0 <= k < |r| ==> r[k] < bound)
  {
    if s[0] == x {
      assert x !in s[1..];
      WithoutAbsent(s[1..], x);
    } else {
      WithoutDistinct(s[1..], x, bound);
      var r := Without(s[1..], x);
      assert s[0] !in r;
    }
  }

  lemma {:induction false} WithoutAbsent(s: seq<Handle>, x: Handle)
    requires x !in s
    ensures Without(s, x) == s
  {
    if s != [] {
      WithoutAbsent(s[1..], x);
    }
  }

  /** The driver object the scrapers hold. Its methods are proved against the
      functions above. */
  class Driver {
    var handles: seq<Handle>
    var focus: Handle
    var next: Handle
    var quitCalls: nat

    function State(): Windows
      reads this
    {
      Windows(handles, focus, next)
    }

    /** A newly created driver (`webdriver.Firefox(...)`). */
    constructor ()
      ensures State() == Fresh() && quitCalls == 0
    {
      handles, focus, next, quitCalls := [0], 0, 1, 0;
    }

    /** A click or `window.open` that opens one new tab. */
    method OpenTab()
      modifies this
      ensures State() == OpenedTab(old(State())) && quitCalls == old(quitCalls)
    {
      handles := handles + [next];
      next := next + 1;
    }

    method SwitchTo(h: Handle) returns (ok: bool)
      modifies this
      ensures ok == SwitchedTo(old(State()), h).Some?
      ensures State() == (if ok then SwitchedTo(old(State()), h).value else old(State()))
      ensures quitCalls == old(quitCalls)
    {
      ok := h in handles;
      if ok {
        focus := h;
      }
    }

    method Close() returns (ok: bool)
      modifies this
      ensures ok == CloseFocused(old(State())).Some?
      ensures State() == (if ok then CloseFocused(old(State())).value else old(State()))
      ensures quitCalls == old(quitCalls)
    {
      ok := focus in handles;
      if ok {
        handles := Without(handles, focus);
      }
    }

    method Quit()
      modifies this
      ensures quitCalls == old(quitCalls) + 1 && State() == old(State())
    {
      quitCalls := quitCalls + 1;
    }
  }
}
