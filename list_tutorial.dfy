/**
 * The list tutorial script of the tic-tac-toe project: what indexing,
 * negative indexing, slicing, `append` and `pop` do to a Python list, the
 * task queue it drains in a `while` loop and the scan for the biggest
 * change between consecutive temperatures. The printing is not modelled.
 */
module ListTutorial {
  import opened Wrappers

  // ---------------------------------------------------------------------
  // Indexing and slicing
  // ---------------------------------------------------------------------

  /** The position an index names in a list of `n` items: `-k` counts back from the end. */
  function Norm(n: nat, i: int): int {
    if i < 0 then n + i else i
  }

  /** `s[i]`: the item at the normalised index, or IndexError outside `-len(s) .. len(s) - 1`. */
  function Get<T>(s: seq<T>, i: int): (r: Result<T, string>)
    ensures r.Ok? <==> -|s| <= i < |s|
    ensures r.Ok? ==> 0 <= Norm(|s|, i) < |s| && r.value == s[Norm(|s|, i)]
  {
    if -|s| <= i < |s| then Ok(s[Norm(|s|, i)]) else Err("IndexError: list index out of range")
  }

  /** A negative index `-k` and the positive index `len - k` name the same item; `-1` is the last one. */
  lemma NegativeIndex<T>(s: seq<T>, k: int)
    requires 1 <= k <= |s|
    ensures Get(s, -k) == Get(s, |s| - k) == Ok(s[|s| - k])
    ensures Get(s, -1) == Ok(s[|s| - 1])
  {
  }

  /** A slice bound: omitted means `default`, negative counts from the end, and either is clipped to `0 .. n`. */
  function Bound(n: nat, i: Option<int>, default: nat): (b: nat)
    requires default <= n
    ensures b <= n
  {
    match i
    case None => default
    case Some(k) => if k < 0 then (if n + k < 0 then 0 else n + k) else (if k > n then n else k)
  }

  /** `s[start:stop]`: the items from the start bound up to, not including, the stop bound. */
  function Slice<T>(s: seq<T>, start: Option<int>, stop: Option<int>): (r: seq<T>)
    ensures |r| <= |s|
  {
    var lo, hi := Bound(|s|, start, 0), Bound(|s|, stop, |s|);
    if lo < hi then s[lo..hi] else []
  }

  /** For bounds inside the list, `s[a:b]` holds the items at `a .. b - 1`: `a` is included and `b` is not. */
  lemma SliceContents<T>(s: seq<T>, a: int, b: int)
    requires 0 <= a <= b <= |s|
    ensures |Slice(s, Some(a), Some(b))| == b - a
    ensures forall j :: a <= j < b ==> Slice(s, Some(a), Some(b))[j - a] == s[j]
  {
  }

  /** Omitting a bound means the start or the end of the list: `s[:b] == s[0:b]` and `s[a:] == s[a:len(s)]`. */
  lemma SliceDefaults<T>(s: seq<T>, a: int, b: int)
    ensures Slice(s, None, Some(b)) == Slice(s, Some(0), Some(b))
    ensures Slice(s, Some(a), None) == Slice(s, Some(a), Some(|s|))
  {
  }

  /** `s[-k:]` is the last `k` items. */
  lemma SliceLast<T>(s: seq<T>, k: int)
    requires 1 <= k <= |s|
    ensures Slice(s, Some(-k), None) == s[|s| - k..]
  {
  }

  /** Whatever the cut, `s[:k] + s[k:]` is `s` again: a slice loses no item and repeats none. */
  lemma SliceSplit<T>(s: seq<T>, k: int)
    ensures Slice(s, None, Some(k)) + Slice(s, Some(k), None) == s
  {
    var b := Bound(|s|, Some(k), 0);
    assert Bound(|s|, Some(k), |s|) == b;
    if b == 0 {
      assert Slice(s, Some(k), None) == s[0..];
    } else if b == |s| {
      assert Slice(s, None, Some(k)) == s[..|s|];
    } else {
      assert s[..b] + s[b..] == s;
    }
  }

  // ---------------------------------------------------------------------
  // append and pop
  // ---------------------------------------------------------------------

  /** `s` without the item at position `k`: the later items move one place left. */
  function Without<T>(s: seq<T>, k: nat): (r: seq<T>)
    requires k < |s|
    ensures |r| == |s| - 1
  {
    s[..k] + s[k + 1..]
  }

  /** Removing an item shifts the later ones left, and putting it back restores the list. */
  lemma WithoutShifts<T>(s: seq<T>, k: nat)
    requires k < |s|
    ensures forall j :: 0 <= j < k ==> Without(s, k)[j] == s[j]
    ensures forall j :: k <= j < |s| - 1 ==> Without(s, k)[j] == s[j + 1]
    ensures Without(s, k)[..k] + [s[k]] + Without(s, k)[k..] == s
  {
    var w := Without(s, k);
    assert w[..k] == s[..k];
    assert w[k..] == s[k + 1..];
    assert s == s[..k] + [s[k]] + s[k + 1..];
  }

  /** `s.pop(i)`: the removed item and the list without it, or IndexError on an empty list or an index out of range. */
  function PopResult<T>(s: seq<T>, i: int): (r: Result<(T, seq<T>), string>)
    ensures r.Ok? <==> -|s| <= i < |s|
    ensures r.Ok? ==> 0 <= Norm(|s|, i) < |s| && r.value == (s[Norm(|s|, i)], Without(s, Norm(|s|, i)))
  {
    if s == [] then Err("IndexError: pop from empty list")
    else if -|s| <= i < |s| then Ok((s[Norm(|s|, i)], Without(s, Norm(|s|, i))))
    else Err("IndexError: pop index out of range")
  }

  /** `pop()` undoes `append`: it returns the item just added and leaves the list as before. */
  lemma AppendThenPop<T>(s: seq<T>, x: T)
    ensures PopResult(s + [x], -1) == Ok((x, s))
  {
    var t := s + [x];
    assert t[..|s|] == s && t[|s| + 1..] == [];
    assert Without(t, |s|) == s;
  }

  /** `pop()` on a non-empty list takes the last item and keeps the others in order. */
  lemma PopLastItem<T>(s: seq<T>)
    requires s != []
    ensures PopResult(s, -1) == Ok((s[|s| - 1], s[..|s| - 1]))
  {
    assert Norm(|s|, -1) == |s| - 1;
    assert s[|s|..] == [];
    assert Without(s, |s| - 1) == s[..|s| - 1];
  }

  /** `pop(0)` takes the first item and keeps the rest in order. */
  lemma PopFirstItem<T>(s: seq<T>)
    requires s != []
    ensures PopResult(s, 0) == Ok((s[0], s[1..]))
  {
    assert Norm(|s|, 0) == 0;
    assert s[..0] == [];
    assert Without(s, 0) == s[1..];
  }

  /** A Python list the script changes in place. */
  class PyList<T> {
    var items: seq<T>

    constructor (init: seq<T>)
      ensures items == init
    {
      items := init;
    }

    /** `append(x)`: one more item at the end; the earlier items stay. */
    method Append(x: T)
      modifies this
      ensures items == old(items) + [x]
    {
      items := items + [x];
    }

    /** `pop(i)`: removes and returns the item `i` names; an IndexError changes nothing. */
    method Pop(i: int) returns (r: Result<T, string>)
      modifies this
      ensures var p := PopResult(old(items), i);
        && r == (if p.Ok? then Ok(p.value.0) else Err(p.error))
        && items == (if p.Ok? then p.value.1 else old(items))
    {
      if items == [] {
        return Err("IndexError: pop from empty list");
      }
      if !(-|items| <= i < |items|) {
        return Err("IndexError: pop index out of range");
      }
      var k := Norm(|items|, i);
      r := Ok(items[k]);
      items := items[..k] + items[k + 1..];
    }
  }

  // ---------------------------------------------------------------------
  // The task queue
  // ---------------------------------------------------------------------

  /** `while len(queue) > 0: current = queue.pop(0)`: the items come out first in, first out, and the queue ends empty. */
  method Drain<T>(queue: PyList<T>) returns (processed: seq<T>)
    modifies queue
    ensures processed == old(queue.items)
    ensures queue.items == []
  {
    processed := [];
    while |queue.items| > 0
      invariant processed + queue.items == old(queue.items)
      decreases |queue.items|
    {
      ghost var before := queue.items;
      var current := queue.Pop(0);
      PopFirstItem(before);
      processed := processed + [current.value];
      assert processed + queue.items == old(queue.items) by {
        assert before == [before[0]] + before[1..];
      }
    }
  }

  /** The queue example: three tasks appended, then processed in the order they were added. */
  method QueueExample() returns (processed: seq<string>)
    ensures processed == ["Send email", "Update database", "Generate report"]
  {
    var queue := new PyList<string>([]);
    queue.Append("Send email");
    queue.Append("Update database");
    queue.Append("Generate report");
    processed := Drain(queue);
  }

  // ---------------------------------------------------------------------
  // The biggest temperature change
  // ---------------------------------------------------------------------

  function Abs(x: int): nat {
    if x < 0 then -x else x
  }

  /** The change between day `i + 1` and day `i + 2`. */
  function Change(t: seq<int>, i: nat): nat
    requires i + 1 < |t|
  {
    Abs(t[i + 1] - t[i])
  }

  /**
   * The scan over consecutive days: `biggestChange` is the largest change
   * (0 when no two consecutive days differ or there are fewer than two
   * days), and `day1`, `day2` number the first pair of days with that
   * change, because a later equal change does not pass the strict `>`.
   */
  method BiggestChange(t: seq<int>) returns (biggestChange: int, day1: int, day2: int)
    ensures biggestChange >= 0
    ensures forall i :: 0 <= i < |t| - 1 ==> Change(t, i) <= biggestChange
    ensures biggestChange == 0 ==> day1 == 0 && day2 == 0
    ensures biggestChange > 0 ==>
      && 1 <= day1 && day1 + 1 < |t| + 1 && day2 == day1 + 1
      && Change(t, day1 - 1) == biggestChange
      && forall i :: 0 <= i < day1 - 1 ==> Change(t, i) < biggestChange
  {
    biggestChange, day1, day2 := 0, 0, 0;
    var n := |t| - 1;
    for i := 0 to if n < 0 then 0 else n
      invariant biggestChange >= 0
      invariant forall j :: 0 <= j < i ==> Change(t, j) <= biggestChange
      invariant biggestChange == 0 ==> day1 == 0 && day2 == 0
      invariant biggestChange > 0 ==>
        && 1 <= day1 <= i && day2 == day1 + 1
        && Change(t, day1 - 1) == biggestChange
        && forall j :: 0 <= j < day1 - 1 ==> Change(t, j) < biggestChange
    {
      var currentTemp := t[i];
      var nextTemp := t[i + 1];
      var change := Abs(nextTemp - currentTemp);
      if change > biggestChange {
        biggestChange := change;
        day1 := i + 1;
        day2 := i + 2;
      }
    }
  }

  // ---------------------------------------------------------------------
  // The script's lists
  // ---------------------------------------------------------------------

  /** The temperatures list, and the same list after `append(74)` and `append(76)`. */
  const Temperatures: seq<int> := [72, 68, 75, 80, 77, 73, 69, 71]
  const TemperaturesAppended: seq<int> := [72, 68, 75, 80, 77, 73, 69, 71, 74, 76]

  /** On the eight temperatures, `[-8]` is `[0]` and `[-1]` is `[7]`; `[2:5]` is the items at 2, 3 and 4. */
  lemma TemperatureIndexing(t: seq<int>)
    requires t == Temperatures
    ensures Get(t, -8) == Get(t, 0) == Ok(72)
    ensures Get(t, -1) == Get(t, 7) == Ok(71)
    ensures Slice(t, Some(2), Some(5)) == [75, 80, 77]
  {
  }

  const ShoppingCart: seq<string> := ["milk", "bread", "eggs", "apples", "cheese", "yogurt"]
  const UserRoles: seq<string> := ["admin", "editor", "viewer", "guest", "moderator"]
  const TaskList: seq<string> := ["Fix login bug", "Update homepage", "Write documentation", "Test payment system", "Deploy to production"]

  /**
   * The append and pop examples: "butter" is added to the cart and popped
   * again, the first task is popped twice over, and after "superadmin" is
   * appended to the roles, `pop(2)` removes "viewer".
   */
  method AppendAndPopExamples() returns (cart: seq<string>, removedItem: string, firstTask: string, currentTask: string, middleRole: string, roles: seq<string>)
    ensures cart == ShoppingCart && removedItem == "butter"
    ensures firstTask == TaskList[0] && currentTask == TaskList[1]
    ensures middleRole == "viewer" && roles == ["admin", "editor", "guest", "moderator", "superadmin"]
  {
    var shoppingCart := new PyList(ShoppingCart);
    var taskList := new PyList(TaskList);
    var userRoles := new PyList(UserRoles);
    shoppingCart.Append("butter");
    var r := shoppingCart.Pop(-1);
    AppendThenPop(ShoppingCart, "butter");
    removedItem, cart := r.value, shoppingCart.items;
    r := taskList.Pop(0);
    firstTask := r.value;
    r := taskList.Pop(0);
    currentTask := r.value;
    userRoles.Append("superadmin");
    r := userRoles.Pop(2);
    middleRole, roles := r.value, userRoles.items;
  }

  /** The two appends add the two readings at the end and keep the eight before them. */
  method AppendTemperatures() returns (t: seq<int>)
    ensures t == TemperaturesAppended
  {
    var temperatures := new PyList(Temperatures);
    temperatures.Append(74);
    temperatures.Append(76);
    t := temperatures.items;
  }

  /** On the ten temperatures the scan reports a change of 7 degrees, between day 2 and day 3. */
  method ScanTemperatures() returns (biggestChange: int, day1: int, day2: int)
    ensures biggestChange == 7 && day1 == 2 && day2 == 3
  {
    var t := TemperaturesAppended;
    biggestChange, day1, day2 := BiggestChange(t);
    assert Change(t, 1) == 7;
    assert forall i :: 0 <= i < |t| - 1 && i != 1 ==> Change(t, i) < 7;
  }
}
