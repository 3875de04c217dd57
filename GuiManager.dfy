/**
 * `vis/gui/manager.go`: the list of UI elements the GUI updates and draws.
 * Elements are compared by identity, as Go compares interface values holding
 * pointers, so an element is any object reference. What an element's own
 * `Update` and `Draw` do is not part of this model: the manager's loops
 * report the elements they visit, in order.
 */
module GuiManager {

  /**
   * The list left after removing the first occurrence of `x`; the list itself
   * when `x` does not occur.
   */
  function RemoveFirst<T(==)>(s: seq<T>, x: T): (r: seq<T>)
    ensures |r| == if x in s then |s| - 1 else |s|
  {
    if s == [] then []
    else if s[0] == x then s[1..]
    else [s[0]] + RemoveFirst(s[1..], x)
  }

  /** Removing an element that does not occur changes nothing. */
  lemma {:induction false} RemoveAbsent<T>(s: seq<T>, x: T)
    requires x !in s
    ensures RemoveFirst(s, x) == s
  {
    if s != [] {
      assert s[0] != x;
      RemoveAbsent(s[1..], x);
    }
  }

  /**
   * When `i` is the first position holding `x`, removing `x` drops exactly
   * position `i` and keeps the rest in order.
   */
  lemma {:induction false} RemoveFirstAt<T>(s: seq<T>, x: T, i: int)
    requires 0 <= i < |s| && s[i] == x && x !in s[..i]
    ensures RemoveFirst(s, x) == s[..i] + s[i + 1..]
  {
    if i > 0 {
      assert s[0] == s[..i][0];
      assert s[1..][..i - 1] == s[..i][1..];
      RemoveFirstAt(s[1..], x, i - 1);
      assert s[1..][..i - 1] == s[1..i];
      assert s[1..][i..] == s[i + 1..];
      assert [s[0]] + s[1..i] == s[..i];
    }
  }

  /** Removing the first occurrence takes one copy of `x` out of the multiset of elements. */
  lemma {:induction false} RemoveFirstMultiset<T>(s: seq<T>, x: T)
    ensures multiset(RemoveFirst(s, x)) == multiset(s) - multiset{x}
  {
    if s != [] {
      assert s == [s[0]] + s[1..];
      if s[0] != x {
        RemoveFirstMultiset(s[1..], x);
      }
    }
  }

  /** `Manager`: the elements in the order they were added, and whether the GUI is enabled. */
  class Manager {
    var elements: seq<object>
    var enabled: bool

    /** `NewManager`: no elements, enabled. */
    constructor ()
      ensures elements == [] && enabled
    {
      elements := [];
      enabled := true;
    }

    /** `AddElement`: appends a non-nil element; nil is ignored. */
    method AddElement(element: object?)
      modifies this
      ensures element != null ==> elements == old(elements) + [element]
      ensures element == null ==> elements == old(elements)
      ensures enabled == old(enabled)
    {
      if element != null {
        elements := elements + [element];
      }
    }

    /**
     * `RemoveElement`: searches the list in order and removes the first
     * occurrence of `element`; nothing changes when it does not occur.
     */
    method RemoveElement(element: object?)
      modifies this
      ensures elements == RemoveFirst(old(elements), element)
      ensures enabled == old(enabled)
    {
      var i := 0;
      while i < |elements|
        invariant 0 <= i <= |elements|
        invariant elements == old(elements) && enabled == old(enabled)
        invariant element !in elements[..i]
      {
        if elements[i] == element {
          RemoveFirstAt(elements, element, i);
          elements := elements[..i] + elements[i + 1..];
          return;
        }
        assert elements[..i + 1] == elements[..i] + [elements[i]];
        i := i + 1;
      }
      assert elements[..i] == elements;
      RemoveAbsent(elements, element);
    }

    /** `Clear`: no elements left. */
    method Clear()
      modifies this
      ensures elements == [] && enabled == old(enabled)
    {
      elements := [];
    }

    /** `Update`: the elements updated, in list order; none while the GUI is disabled. */
    method Update() returns (visited: seq<object>)
      ensures visited == if enabled then elements else []
    {
      visited := [];
      if !enabled {
        return;
      }
      for i := 0 to |elements|
        invariant visited == elements[..i]
      {
        visited := visited + [elements[i]];
      }
      assert elements[..|elements|] == elements;
    }

    /** `Draw`: the elements drawn, in list order; none while the GUI is disabled. */
    method Draw() returns (visited: seq<object>)
      ensures visited == if enabled then elements else []
    {
      visited := [];
      if !enabled {
        return;
      }
      for i := 0 to |elements|
        invariant visited == elements[..i]
      {
        visited := visited + [elements[i]];
      }
      assert elements[..|elements|] == elements;
    }

    /** `SetEnabled`: sets the flag; the elements stay. */
    method SetEnabled(enabled: bool)
      modifies this
      ensures this.enabled == enabled && elements == old(elements)
    {
      this.enabled := enabled;
    }

    /** `IsEnabled`. */
    function IsEnabled(): bool
      reads this
    {
      enabled
    }

    /** `GetElements`: a new array holding the elements in order. */
    method GetElements() returns (result: array<object>)
      ensures fresh(result) && result[..] == elements
    {
      result := new object[|elements|](i requires 0 <= i < |elements| reads this => elements[i]);
    }
  }

  /** Nil is not added, and removing an element added twice drops only its first copy. */
  method ManagerScenario(a: object, b: object) returns (m: Manager)
    requires a != b
    ensures m.elements == [b, a] && m.enabled
  {
    m := new Manager();
    m.AddElement(a);
    m.AddElement(null);
    m.AddElement(b);
    m.AddElement(a);
    assert m.elements == [a, b, a];
    m.RemoveElement(a);
    assert m.elements == RemoveFirst([a, b, a], a);
  }

  /** `SetEnabled(b)` then `IsEnabled()` gives `b`, and a disabled manager visits nothing. */
  method EnabledScenario(m: Manager, b: bool) returns (updated: seq<object>)
    modifies m
    ensures m.IsEnabled() == b && m.elements == old(m.elements)
    ensures !b ==> updated == []
  {
    m.SetEnabled(b);
    updated := m.Update();
  }
}
