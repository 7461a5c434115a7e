/**
  The queue of yaml_private.h and api.c: a window in an array, moved to the front or doubled
  when it reaches the end. Over every run it is a sequence.
 */
module TokenQueue {

  class Queue<T(0)> {
    var buffer: array<T>
    var head: nat
    var tail: nat

    constructor (size: nat)
      requires size > 0
      ensures Valid() && Contents() == [] && fresh(buffer)
    {
      buffer := new T[size];
      head, tail := 0, 0;
    }

    ghost predicate Valid()
      reads this
    {
      head <= tail <= buffer.Length && buffer.Length > 0
    }

    ghost function Contents(): seq<T>
      requires Valid()
      reads this, buffer
    {
      buffer[head..tail]
    }

    /** Makes room at the end: a full buffer is doubled, else the window moves to the front. */
    method Extend()
      requires Valid() && tail == buffer.Length
      modifies this, buffer
      ensures Valid() && tail < buffer.Length && Contents() == old(Contents())
      ensures buffer == old(buffer) || fresh(buffer)
      ensures old(head) == 0 <==> buffer.Length == 2 * old(buffer.Length)
      ensures old(head) != 0 ==> buffer == old(buffer) && head == 0
    {
      if head == 0 {
        var larger := new T[2 * buffer.Length];
        var k := 0;
        while k < tail
          invariant 0 <= k <= tail
          invariant larger[..k] == buffer[..k]
          modifies larger
        {
          larger[k] := buffer[k];
          k := k + 1;
        }
        buffer := larger;
      }
      if tail == buffer.Length {
        MoveToFront();
      }
    }

    /** Moves the window to the start of the buffer. */
    method MoveToFront()
      requires Valid()
      modifies this, buffer
      ensures Valid() && buffer == old(buffer) && head == 0 && tail == old(tail - head) && Contents() == old(Contents())
    {
      ghost var contents := buffer[head..tail];
      var n := tail - head;
      var k := 0;
      while k < n
        invariant 0 <= k <= n
        invariant buffer[..k] == contents[..k] && buffer[head + k..tail] == contents[k..]
        modifies buffer
      {
        assert buffer[head + k..tail][0] == contents[k..][0];
        assert buffer[head + k + 1..tail] == buffer[head + k..tail][1..];
        buffer[k] := buffer[head + k];
        k := k + 1;
      }
      head, tail := 0, n;
      assert buffer[0..n] == contents;
    }

    method Enqueue(value: T)
      requires Valid()
      modifies this, buffer
      ensures Valid() && Contents() == old(Contents()) + [value]
      ensures buffer == old(buffer) || fresh(buffer)
    {
      if tail == buffer.Length {
        Extend();
      }
      buffer[tail] := value;
      tail := tail + 1;
    }

    method Dequeue() returns (value: T)
      requires Valid() && Contents() != []
      modifies this`head
      ensures Valid() && [value] + Contents() == old(Contents())
    {
      value := buffer[head];
      head := head + 1;
    }

    /** Inserts at a place of the sequence; what is behind it moves up by one. */
    method Insert(index: nat, value: T)
      requires Valid() && index <= |Contents()|
      modifies this, buffer
      ensures Valid() && Contents() == old(Contents())[..index] + [value] + old(Contents())[index..]
      ensures buffer == old(buffer) || fresh(buffer)
    {
      if tail == buffer.Length {
        Extend();
      }
      ghost var contents := Contents();
      OpenGap(index);
      Fill(index, value, contents);
    }

    /** Puts a value into the gap. */
    method Fill(index: nat, value: T, ghost contents: seq<T>)
      requires Valid() && tail < buffer.Length && index <= |contents| == tail - head
      requires buffer[head..head + index] == contents[..index] && buffer[head + index + 1..tail + 1] == contents[index..]
      modifies this`tail, buffer
      ensures Valid() && Contents() == contents[..index] + [value] + contents[index..]
    {
      buffer[head + index] := value;
      assert buffer[head..head + index] == contents[..index];
      assert buffer[head + index + 1..tail + 1] == contents[index..];
      Split(buffer[..], head, head + index, tail + 1);
      tail := tail + 1;
      SameWindow(buffer, head, tail);
      SameWindow(buffer, head, head + index);
      SameWindow(buffer, head + index + 1, tail);
    }

    static lemma Split(s: seq<T>, i: nat, j: nat, k: nat)
      requires i <= j < k <= |s|
      ensures s[i..k] == s[i..j] + [s[j]] + s[j + 1..k]
    {
    }

    static lemma SameWindow(a: array<T>, i: nat, j: nat)
      requires i <= j <= a.Length
      ensures a[i..j] == a[..][i..j]
    {
    }

    /** Moves what is behind a place up by one, from the end down. */
    method OpenGap(index: nat)
      requires Valid() && tail < buffer.Length && index <= |Contents()|
      modifies buffer
      ensures buffer[head..head + index] == old(Contents())[..index]
      ensures buffer[head + index + 1..tail + 1] == old(Contents())[index..]
    {
      var k := tail;
      while k > head + index
        invariant head + index <= k <= tail
        invariant forall j :: head <= j < k ==> buffer[j] == old(buffer[j])
        invariant forall j :: k <= j < tail ==> buffer[j + 1] == old(buffer[j])
        modifies buffer
      {
        buffer[k] := buffer[k - 1];
        k := k - 1;
      }
    }
  }
}
