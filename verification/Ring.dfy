/** What a fixed-capacity ring buffer remembers of a history: its newest entries. */
module Ring {

  function Retain<T>(history: seq<T>, capacity: nat): seq<T> {
    if |history| <= capacity then history else history[|history| - capacity..]
  }

  /** Forgetting early or late makes no difference: one more entry is all a full buffer needs to see. */
  lemma RetainAgain<T>(history: seq<T>, capacity: nat, x: T)
    ensures Retain(Retain(history, capacity) + [x], capacity) == Retain(history + [x], capacity)
  {
    var all := history + [x];
    if |history| > capacity {
      var kept := Retain(history, capacity);
      assert |kept| == capacity;
      assert kept + [x] == all[|history| - capacity..];
      assert (kept + [x])[1..] == all[|all| - capacity..];
    }
  }

  /** The array cells of a ring in age order: the oldest retained entry sits at head once the ring is full. */
  function Unrolled<T>(data: seq<T>, head: nat, len: nat): seq<T>
    requires head <= |data| && len <= |data|
  {
    if len < |data| then data[..len] else data[head..] + data[..head]
  }

  /** While the ring is filling, head and len agree; a full ring may start anywhere. */
  predicate WellFormed(head: nat, len: nat, capacity: nat) {
    len <= capacity && (len < capacity ==> head == len) && (head < capacity || (head == 0 && capacity == 0))
  }

  function NextCell(head: nat, capacity: nat): (next: nat)
    requires head < capacity
    ensures next == if head + 1 == capacity then 0 else head + 1
  {
    assert (head + 1) % capacity == if head + 1 == capacity then 0 else head + 1 by {
      if head + 1 == capacity {
        RemainderIs(head + 1, 1, 0, capacity);
      } else {
        RemainderIs(head + 1, 0, head + 1, capacity);
      }
    }
    (head + 1) % capacity
  }

  /** Writing at head and advancing appends the entry and drops the oldest one of a full ring. */
  lemma AdvanceAppends<T>(data: seq<T>, head: nat, len: nat, x: T)
    requires 0 < |data| && WellFormed(head, len, |data|)
    ensures var head', len' := NextCell(head, |data|), if len < |data| then len + 1 else len;
      && WellFormed(head', len', |data|)
      && Unrolled(data[head := x], head', len') == Retain(Unrolled(data, head, len) + [x], |data|)
  {
    var data' := data[head := x];
    if len + 1 < |data| {
      assert data'[..len + 1] == data[..len] + [x];
    } else if len < |data| {
      assert data' == data[..len] + [x];
    } else {
      var all := Unrolled(data, head, len) + [x];
      assert all[1..] == data[head + 1..] + data[..head] + [x];
      if head + 1 == |data| {
        assert data' == data[..head] + [x];
      } else {
        assert data'[head + 1..] == data[head + 1..];
        assert data'[..head + 1] == data[..head] + [x];
      }
    }
  }

  /** The cell the readers compute for the i-th newest entry holds exactly that entry. */
  lemma CellOfAge<T>(data: seq<T>, head: nat, len: nat, i: nat)
    requires WellFormed(head, len, |data|) && i < len
    ensures var cell := (head - 1 - i + |data| * 2) % |data|;
      cell < |data| && data[cell] == Unrolled(data, head, len)[len - 1 - i]
  {
    var c := |data|;
    var raw := head - 1 - i;
    if raw >= 0 {
      RemainderIs(raw + c * 2, 2, raw, c);
    } else {
      RemainderIs(raw + c * 2, 1, raw + c, c);
    }
  }

  lemma RemainderIs(x: nat, q: nat, r: nat, c: nat)
    requires r < c && x == q * c + r
    ensures x % c == r
  {
    var q', r' := x / c, x % c;
    assert x == q' * c + r';
    if q < q' {
      ScaleMonotone(q + 1, q', c);
    } else if q' < q {
      ScaleMonotone(q' + 1, q, c);
    }
  }

  lemma ScaleMonotone(a: nat, b: nat, c: nat)
    requires a <= b
    ensures a * c <= b * c
  {
    assert (b - a) * c >= 0;
  }
}
