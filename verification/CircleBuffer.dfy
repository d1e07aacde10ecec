/** base/circle_buffer.h: a ring of fixed capacity whose push_back overwrites the oldest element. */
module CircleBuffer {
  import opened Chunks

  class CircleBuffer<T> {
    const data: array<T>
    var front: nat
    var back: nat
    var size: nat

    /** `back` is the slot before the one at distance `size` from `front`. */
    ghost predicate Valid()
      reads this
    {
      && size <= data.Length < WORD
      && (data.Length == 0 ==> front == 0)
      && (data.Length > 0 ==> front < data.Length && back < data.Length && Index(back + 1) == Slot(size))
    }

    /** index */
    function Index(i: nat): nat {
      if i < data.Length then i else 0
    }

    /** The slot at distance `i` from the front. */
    ghost function Slot(i: nat): nat
      reads this
    {
      if front + i < data.Length then front + i else if front + i < 2 * data.Length then front + i - data.Length else 0
    }

    /** The elements from the oldest to the newest. */
    ghost function Contents(): (s: seq<T>)
      requires Valid()
      reads this, data
      ensures |s| == size
    {
      seq(size, i requires 0 <= i < size && Slot(i) < data.Length reads this, data => data[Slot(i)])
    }

    constructor (n: nat, val: T)
      requires n < WORD
      ensures Valid() && fresh(data) && data.Length == n
      ensures Contents() == seq(n, _ => val) && forall j :: 0 <= j < n ==> data[j] == val
      ensures front == 0 && (n > 0 ==> back == n - 1)
    {
      data := new T[n](_ => val);
      front, back, size := 0, (n - 1) % WORD, n;
    }

    method PushBack(val: T)
      requires Valid()
      modifies this, data
      ensures Valid()
      ensures Contents() == if data.Length == 0 then old(Contents())
                            else if old(size) == data.Length then old(Contents())[1..] + [val]
                            else old(Contents()) + [val]
      ensures old(size) == data.Length > 0 ==>
                back == old(front) && front == Index(old(front) + 1) && data[..] == old(data[..])[old(front) := val]
    {
      if size == data.Length {
        if size == 0 {
          return;
        }
        Overwrite(val);
      } else {
        Append(val);
      }
    }

    /** A full ring: the oldest element makes room. */
    method Overwrite(val: T)
      requires Valid() && size == data.Length > 0
      modifies this`front, this`back, data
      ensures Valid() && Contents() == old(Contents())[1..] + [val]
      ensures back == old(front) && front == Index(old(front) + 1) && data[..] == old(data[..])[old(front) := val]
    {
      data[front] := val;
      back := front;
      front := Index(front + 1);
    }

    method Append(val: T)
      requires Valid() && size < data.Length
      modifies this`back, this`size, data
      ensures Valid() && Contents() == old(Contents()) + [val]
    {
      back := Index(back + 1);
      data[back] := val;
      size := size + 1;
    }

    method PopFront()
      requires Valid() && size > 0
      modifies this
      ensures Valid() && Contents() == old(Contents())[1..]
    {
      front := Index(front + 1);
      size := size - 1;
    }

    method Clear()
      requires Valid()
      modifies this
      ensures Valid() && Contents() == []
    {
      size, front, back := 0, 0, (data.Length - 1) % WORD;
    }

    method Front() returns (val: T)
      requires Valid() && size > 0
      ensures val == Contents()[0]
    {
      val := data[front];
    }

    method Back() returns (val: T)
      requires Valid() && size > 0
      ensures val == Contents()[size - 1]
    {
      assert Slot(size - 1) == back;
      val := data[back];
    }
  }
}
