/** The observable value wrapper `Proxy<T>`: one stored value and an optional
    change handler that is called, after the value is committed, whenever a
    write actually changes the value.

    The handler itself is foreign code; the model records only WHETHER a
    handler is present and, in a ghost log, the argument of every call it
    receives. Value equality (`leaf::eq`) is Dafny's `==`. */
module Proxy {

  /** The abstract state of a proxy: its value, whether it has a handler,
      and the arguments the handler has been called with, oldest first. */
  datatype Cell<T> = Cell(value: T, hasHandler: bool, fired: seq<T>)

  /** No two consecutive entries of `s` are equal. */
  ghost predicate NoStutter<T>(s: seq<T>)
  {
    forall i :: 0 < i < |s| ==> s[i - 1] != s[i]
  }

  /** What every reachable proxy state satisfies: a proxy without handler
      has never fired; the last value delivered to the handler is the value
      held now; the handler never sees the same value twice in a row. */
  ghost predicate Coherent<T>(c: Cell<T>)
  {
    && (!c.hasHandler ==> c.fired == [])
    && (c.fired != [] ==> c.fired[|c.fired| - 1] == c.value)
    && NoStutter(c.fired)
  }

  /** The effect of `set(v)`: an equal value is absorbed; a different one is
      stored and then delivered to the handler, if there is one. */
  function SetCell<T(==)>(c: Cell<T>, v: T): Cell<T>
  {
    if v == c.value then c
    else c.(value := v, fired := if c.hasHandler then c.fired + [v] else c.fired)
  }

  /** The effect of a sequence of `set` calls, first write first. */
  function SetAll<T(==)>(c: Cell<T>, writes: seq<T>): Cell<T>
    decreases |writes|
  {
    if writes == [] then c else SetAll(SetCell(c, writes[0]), writes[1..])
  }

  /** Reference definition: the writes among `writes` that differ from the
      value held just before them, starting from `init`. */
  function Changes<T(==)>(init: T, writes: seq<T>): seq<T>
    decreases |writes|
  {
    if writes == [] then []
    else if writes[0] == init then Changes(init, writes[1..])
    else [writes[0]] + Changes(writes[0], writes[1..])
  }

  /** The last write of a non-empty sequence, or `init` for the empty one. */
  function LastOr<T>(init: T, writes: seq<T>): T
  {
    if writes == [] then init else writes[|writes| - 1]
  }

  /** `set(v)` leaves `v` stored, keeps the handler, and fires exactly when the
      value changed, exactly once, with `v`. */
  lemma SetSpec<T>(c: Cell<T>, v: T)
    ensures SetCell(c, v).value == v
    ensures SetCell(c, v).hasHandler == c.hasHandler
    ensures v == c.value ==> SetCell(c, v) == c
    ensures v != c.value && c.hasHandler ==> SetCell(c, v).fired == c.fired + [v]
    ensures v != c.value && !c.hasHandler ==> SetCell(c, v).fired == c.fired
    ensures |SetCell(c, v).fired| == |c.fired| + (if v != c.value && c.hasHandler then 1 else 0)
  {
  }

  /** Writing the same value twice is writing it once: the second `set`
      never fires. */
  lemma SetIdempotent<T>(c: Cell<T>, v: T)
    ensures SetCell(SetCell(c, v), v) == SetCell(c, v)
    ensures |SetAll(c, [v, v]).fired| <= |c.fired| + 1
  {
    assert [v, v][1..] == [v];
    assert SetAll(c, [v, v]) == SetAll(SetCell(c, v), [v]);
    assert SetAll(SetCell(c, v), [v]) == SetCell(SetCell(c, v), v);
  }

  /** `set` keeps a coherent state coherent. */
  lemma SetKeepsCoherent<T>(c: Cell<T>, v: T)
    requires Coherent(c)
    ensures Coherent(SetCell(c, v))
  {
  }

  /** Every value the reference `Changes` lists differs from its
      predecessor, the first one from the starting value. */
  lemma {:induction false} ChangesNoStutter<T>(init: T, writes: seq<T>)
    ensures NoStutter([init] + Changes(init, writes))
    ensures |Changes(init, writes)| <= |writes|
    decreases |writes|
  {
    if writes != [] {
      ChangesNoStutter(if writes[0] == init then init else writes[0], writes[1..]);
      if writes[0] != init {
        var rest := Changes(writes[0], writes[1..]);
        var s := [init] + ([writes[0]] + rest);
        var t := [writes[0]] + rest;
        assert s == [init] + t;
        forall i | 0 < i < |s| ensures s[i - 1] != s[i] {
          if i > 1 {
            assert s[i - 1] == t[i - 2] && s[i] == t[i - 1];
          }
        }
      }
    }
  }

  /** A run of writes: the handler's log grows by exactly the writes that
      changed the value (nothing for a proxy without handler), the last write
      is the value held afterwards, and the handler is never transferred. */
  lemma {:induction false} SetAllLog<T>(c: Cell<T>, writes: seq<T>)
    ensures SetAll(c, writes).fired == c.fired + (if c.hasHandler then Changes(c.value, writes) else [])
    ensures SetAll(c, writes).value == LastOr(c.value, writes)
    ensures SetAll(c, writes).hasHandler == c.hasHandler
    decreases |writes|
  {
    if writes != [] {
      var c' := SetCell(c, writes[0]);
      SetAllLog(c', writes[1..]);
      if writes[0] != c.value && c.hasHandler {
        assert c'.fired + Changes(c'.value, writes[1..])
            == c.fired + ([writes[0]] + Changes(writes[0], writes[1..]));
      }
      if |writes| > 1 {
        assert writes[1..][|writes[1..]| - 1] == writes[|writes| - 1];
      }
    }
  }

  /** `Proxy<T>`: the stored value `val`, whether the `changed` handler is
      present, and the ghost log of the handler's calls. Copy and move
      construction are deleted in the source; there is no such member here. */
  class Proxy<T(==)> {
    var val: T
    var changed: bool
    ghost var fired: seq<T>

    ghost function State(): Cell<T>
      reads this
    {
      Cell(val, changed, fired)
    }

    ghost predicate Valid()
      reads this
    {
      Coherent(State())
    }

    /** `Proxy(val, on_change)`: stores both, calls nothing. */
    constructor (v: T, onChange: bool)
      ensures Valid()
      ensures State() == Cell(v, onChange, [])
    {
      val := v;
      changed := onChange;
      fired := [];
    }

    /** `get()`: the stored value, which is also the last value the handler
        was given. */
    function Get(): (v: T)
      reads this
      requires Valid()
      ensures v == State().value
      ensures fired != [] ==> v == fired[|fired| - 1]
    {
      val
    }

    /** `operator*`: the same as `get()`. */
    function Deref(): (v: T)
      reads this
      requires Valid()
      ensures v == Get()
      ensures fired != [] ==> v == fired[|fired| - 1]
    {
      Get()
    }

    /** `set(v)`: returns early on an equal value; otherwise commits `v`
        and then calls the handler with the committed value. */
    method Set(v: T)
      requires Valid()
      modifies this
      ensures Valid()
      ensures State() == SetCell(old(State()), v)
      ensures val == v && changed == old(changed)
      ensures v == old(val) ==> fired == old(fired)
      ensures v != old(val) ==> fired == old(fired) + (if changed then [v] else [])
    {
      SetKeepsCoherent(State(), v);
      if v == val {
        return;
      }
      val := v;
      if changed {
        fired := fired + [val];
      }
    }

    /** Copy assignment `*this = other`: `set(other.get())`. The handler stays
        with its proxy and `other` keeps its value (also when it is `this`). */
    method CopyAssign(other: Proxy<T>)
      requires Valid() && other.Valid()
      modifies this
      ensures Valid()
      ensures State() == SetCell(old(State()), old(other.val))
      ensures other.val == old(other.val)
      ensures changed == old(changed)
    {
      Set(other.Get());
    }

    /** Move assignment: identical to copy assignment; nothing is moved. */
    method MoveAssign(other: Proxy<T>)
      requires Valid() && other.Valid()
      modifies this
      ensures Valid()
      ensures State() == SetCell(old(State()), old(other.val))
      ensures other.val == old(other.val)
      ensures changed == old(changed)
    {
      Set(other.Get());
    }
  }
}
