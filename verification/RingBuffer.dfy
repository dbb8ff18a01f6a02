/** Bitwise `and` on machine words, and when masking an index is the same as reducing it. */
module Masks {
  /** `a & b`, bit by bit from the lowest. */
  function And(a: nat, b: nat): nat {
    if a == 0 || b == 0 then 0 else 2 * And(a / 2, b / 2) + (a % 2) * (b % 2)
  }

  predicate IsPow2(n: nat) {
    n == 1 || (n > 0 && n % 2 == 0 && IsPow2(n / 2))
  }

  /** Writing `i` as `2 * q + r` and `q` modulo `m` gives `i` modulo `2 * m`. */
  lemma DoubleMod(i: nat, m: nat)
    requires m > 0
    ensures i % (2 * m) == 2 * ((i / 2) % m) + i % 2
  {
    var q, r := i / 2, i % 2;
    var a, b := q / m, q % m;
    assert q == a * m + b;
    assert i == a * (2 * m) + (2 * b + r) by {
      assert 2 * (a * m) == a * (2 * m);
    }
    DivModUnique(i, 2 * m, a, 2 * b + r);
  }

  /** Different multiples of `n` are at least `n` apart. */
  lemma MultiplesApart(a: nat, b: nat, n: nat)
    requires a < b
    ensures b * n - a * n >= n
  {
    assert b * n - a * n == (b - a) * n;
    assert (b - a) * n == (b - a - 1) * n + n;
  }

  lemma DivModUnique(x: nat, n: nat, q: nat, r: nat)
    requires r < n && x == q * n + r
    ensures x % n == r
  {
    var d := x / n;
    assert x == d * n + x % n;
    if d != q {
      MultiplesApart(if d < q then d else q, if d < q then q else d, n);
    }
  }

  lemma {:induction false} MaskIsMod(i: nat, n: nat)
    requires IsPow2(n)
    ensures And(i, n - 1) == i % n
  {
    if n > 1 {
      var m := n / 2;
      MaskIsMod(i / 2, m);
      DoubleMod(i, m);
      assert (n - 1) / 2 == m - 1 && (n - 1) % 2 == 1;
      if i > 0 {
        assert And(i, n - 1) == 2 * And(i / 2, m - 1) + i % 2;
      }
    }
  }

  lemma {:induction false} AndSelf(a: nat)
    ensures And(a, a) == a
  {
    if a > 0 {
      AndSelf(a / 2);
    }
  }

  /** Index `n` itself is masked to something else than 0 unless `n` is a power of two. */
  lemma {:induction false} MaskedCapacity(n: nat)
    requires n > 0 && !IsPow2(n)
    ensures And(n, n - 1) != 0
  {
    if n % 2 == 1 {
      assert (n - 1) / 2 == n / 2 && (n - 1) % 2 == 0;
      AndSelf(n / 2);
    } else {
      MaskedCapacity(n / 2);
      assert (n - 1) / 2 == n / 2 - 1;
    }
  }

  /** `i & (n - 1)` and `i % n` agree on all indices exactly for powers of two. */
  lemma MaskAgreesIffPow2(n: nat)
    requires n > 0
    ensures (forall i: nat :: And(i, n - 1) == i % n) <==> IsPow2(n)
  {
    if IsPow2(n) {
      forall i: nat ensures And(i, n - 1) == i % n { MaskIsMod(i, n); }
    } else {
      MaskedCapacity(n);
      assert And(n, n - 1) != n % n;
    }
  }

  /** The constructor's test for evenness is not enough: for capacity 6, ticket 2 would be read from slot 0. */
  lemma EvenIsNotEnough()
    ensures 6 % 2 == 0 && And(2, 6 - 1) == 0 != 2 % 6
  {
    assert And(1, 2) == 2 * And(0, 1) + 0;
    assert And(2, 5) == 2 * And(1, 2) + 0;
  }

  /** Two tickets less than `n` apart use the same slot only if they are the same. */
  lemma DistinctSlots(i: nat, j: nat, n: nat)
    requires n > 0 && i <= j < i + n && i % n == j % n
    ensures i == j
  {
    var q, r, k := i / n, i % n, j - i;
    assert i == q * n + r;
    if r + k < n {
      DivModUnique(j, n, q, r + k);
    } else {
      assert (q + 1) * n == q * n + n;
      DivModUnique(j, n, q + 1, r + k - n);
    }
  }
}

/**
 The ring buffer of src/utils/ring_buffer.rs used by one caller at a time: an array, two tickets
 that only grow, producers indexing by remainder and consumers by mask.
 */
module RingBuffers {
  import opened Machine
  import opened Masks

  /** What `push` returns; on failure the value comes back. */
  datatype PushResult<T> = Pushed | Full(value: T)

  ghost function Copies<T>(value: T, n: nat): seq<T> {
    seq(n, _ => value)
  }

  class RingBuffer<T(0)> {
    const buffer: array<T>
    var head: nat
    var tail: nat

    /**
     What the buffer holds, oldest first, and the whole history of what went in and out. `discarded`
     are the copies that a pop read and threw away because its compare-exchange failed.
     */
    ghost var contents: seq<T>
    ghost var pushed: seq<T>
    ghost var popped: seq<T>
    ghost var discarded: seq<T>

    ghost predicate Valid()
      reads this, buffer
    {
      && (buffer.Length == 0 || IsPow2(buffer.Length))
      && tail <= head <= tail + buffer.Length && head <= USIZE_MAX
      && |contents| == head - tail
      && (forall i | 0 <= i < |contents| :: contents[i] == buffer[(tail + i) % buffer.Length])
      && pushed == popped + contents
    }

    /** The assertion in the source only asks for an even size; the README asks for a power of two. */
    constructor (n: nat)
      requires n == 0 || (n % 2 == 0 && IsPow2(n))
      ensures Valid() && fresh(buffer) && buffer.Length == n
      ensures contents == pushed == popped == discarded == []
    {
      buffer := new T[n];
      head, tail := 0, 0;
      contents, pushed, popped, discarded := [], [], [], [];
    }

    /** The weak compare-exchange may fail `spurious` times before it succeeds. */
    method Push(value: T, spurious: nat) returns (r: PushResult<T>)
      requires Valid() && head < USIZE_MAX
      modifies this`head, this`contents, this`pushed, buffer
      ensures Valid()
      ensures r.Full? <==> |old(contents)| == buffer.Length
      ensures r.Full? ==> r.value == value && contents == old(contents) && pushed == old(pushed)
      ensures r.Pushed? ==> contents == old(contents) + [value] && pushed == old(pushed) + [value]
    {
      var failures := spurious;
      while true
        invariant Valid() && head == old(head) && contents == old(contents) && pushed == old(pushed)
        decreases failures
      {
        var currentTail := tail;
        var currentHead := head;
        var usedSlots := currentHead - currentTail;
        if usedSlots >= buffer.Length {
          return Full(value);
        }
        if failures == 0 {
          StoreAtHead(value);
          return Pushed;
        }
        failures := failures - 1;
      }
    }

    /** A successful claim of ticket `head`, and the write to its slot. */
    method StoreAtHead(value: T)
      requires Valid() && head < USIZE_MAX && |contents| < buffer.Length
      modifies this`head, this`contents, this`pushed, buffer
      ensures Valid() && head == old(head) + 1
      ensures contents == old(contents) + [value] && pushed == old(pushed) + [value]
    {
      var idx := head % buffer.Length;
      head := head + 1;
      buffer[idx] := value;
      forall i | 0 <= i < |contents| ensures contents[i] == buffer[(tail + i) % buffer.Length] {
        if (tail + i) % buffer.Length == idx {
          DistinctSlots(tail + i, head - 1, buffer.Length);
        }
      }
      contents, pushed := contents + [value], pushed + [value];
    }

    /** One attempt: gives up on a full buffer, and also when the weak compare-exchange fails spuriously. */
    method TryPush(value: T, spurious: bool) returns (r: PushResult<T>)
      requires Valid() && head < USIZE_MAX
      modifies this`head, this`contents, this`pushed, buffer
      ensures Valid()
      ensures r.Full? <==> |old(contents)| == buffer.Length || spurious
      ensures r.Full? ==> r.value == value && contents == old(contents) && pushed == old(pushed)
      ensures r.Pushed? ==> contents == old(contents) + [value] && pushed == old(pushed) + [value]
    {
      var currentTail := tail;
      var currentHead := head;
      var usedSlots := currentHead - currentTail;
      if usedSlots >= buffer.Length || spurious {
        return Full(value);
      }
      StoreAtHead(value);
      return Pushed;
    }

    /**
     The slot is read through the mask `N - 1`. The weak compare-exchange may fail `spurious` times,
     each time throwing away the copy that was read.
     */
    method Pop(spurious: nat) returns (r: Option<T>)
      requires Valid()
      modifies this`tail, this`contents, this`popped, this`discarded
      ensures Valid()
      ensures r.None? <==> old(contents) == []
      ensures r.None? ==> contents == old(contents) && popped == old(popped) && discarded == old(discarded)
      ensures r.Some? ==> [r.value] + contents == old(contents) && popped == old(popped) + [r.value]
      ensures r.Some? ==> discarded == old(discarded) + Copies(r.value, spurious)
    {
      var currentTail := tail;
      var failures := 0;
      while true
        invariant Valid() && tail == old(tail) && contents == old(contents) && popped == old(popped)
        invariant currentTail == tail && failures <= spurious
        invariant contents == [] ==> failures == 0
        invariant contents != [] ==> discarded == old(discarded) + Copies(contents[0], failures)
        invariant contents == [] ==> discarded == old(discarded)
        decreases spurious - failures
      {
        var currentHead := head;
        if currentHead == currentTail {
          return None;
        }
        var mask := buffer.Length - 1;
        MaskIsMod(currentTail, buffer.Length);
        var value := buffer[And(currentTail, mask)];
        assert value == contents[0];
        if failures == spurious {
          TakeFirst(value);
          return Some(value);
        }
        assert Copies(value, failures + 1) == Copies(value, failures) + [value];
        discarded := discarded + [value];
        failures, currentTail := failures + 1, tail;
      }
    }

    /** A successful claim of ticket `tail`. */
    method TakeFirst(value: T)
      requires Valid() && contents != [] && value == contents[0]
      modifies this`tail, this`contents, this`popped
      ensures Valid() && tail == old(tail) + 1
      ensures [value] + contents == old(contents) && popped == old(popped) + [value]
    {
      tail := tail + 1;
      assert contents == [value] + contents[1..];
      contents, popped := contents[1..], popped + [value];
    }

    /** One attempt, the slot read through the remainder: a spurious failure looks like an empty buffer. */
    method TryPop(spurious: bool) returns (r: Option<T>)
      requires Valid()
      modifies this`tail, this`contents, this`popped, this`discarded
      ensures Valid()
      ensures r.None? <==> old(contents) == [] || spurious
      ensures r.None? ==> contents == old(contents) && popped == old(popped)
      ensures r.Some? ==> [r.value] + contents == old(contents) && popped == old(popped) + [r.value]
      ensures discarded == old(discarded) + if old(contents) != [] && spurious then [old(contents)[0]] else []
    {
      var currentTail := tail;
      var currentHead := head;
      if currentHead == currentTail {
        return None;
      }
      var idx := currentTail % buffer.Length;
      var value := buffer[idx];
      assert value == contents[0];
      if spurious {
        discarded := discarded + [value];
        return None;
      }
      TakeFirst(value);
      return Some(value);
    }

    /** Dropping the buffer drops what is left, in order: what went in and never came out, each once. */
    method Drop() returns (released: seq<T>)
      requires Valid()
      ensures released == contents
      ensures pushed == popped + released
    {
      released := [];
      for idx := tail to head
        invariant released == contents[..idx - tail]
      {
        MaskIsMod(idx, buffer.Length);
        released := released + [buffer[And(idx, buffer.Length - 1)]];
        assert contents[idx - tail] == buffer[(tail + (idx - tail)) % buffer.Length];
      }
    }
  }
}
