/** The queue as it is stored: an array of pointers to car records, shifted in place.
    Every method is proved against the functions of CarQueue. */
module PriorityQueueInPlace {
  import opened CarQueue

  class CarRecord {
    const id: nat
    var priority: int
    var enterTime: int

    constructor (id: nat, priority: int, enterTime: int)
      ensures this.id == id && this.priority == priority && this.enterTime == enterTime
    {
      this.id, this.priority, this.enterTime := id, priority, enterTime;
    }

    function View(): Entry
      reads this
    {
      Entry(id, priority, enterTime)
    }
  }

  ghost function Entries(records: seq<CarRecord>): (q: seq<Entry>)
    reads records
    ensures Shows(records, q)
  {
    seq(|records|, j requires 0 <= j < |records| reads records => records[j].View())
  }

  ghost predicate Shows(records: seq<CarRecord>, q: seq<Entry>)
    reads records
  {
    |records| == |q| && forall j :: 0 <= j < |q| ==> records[j].View() == q[j]
  }

  lemma ShiftedIsInserted(front: seq<CarRecord>, q: seq<Entry>, key: CarRecord, k: nat)
    requires Shows(front, q) && k <= |front|
    requires forall j :: k <= j < |front| ==> Before(key.View(), front[j].View())
    requires k > 0 ==> !Before(key.View(), front[k - 1].View())
    ensures Shows(front[..k] + [key] + front[k..], Insert(q, key.View()))
  {
  }

  lemma ShiftMakesRoom(slots: seq<CarRecord?>, front: seq<CarRecord>, key: CarRecord, k: nat)
    requires |slots| == |front| + 1 && k <= |front| && slots[k] == key
    requires forall j :: 0 <= j < k ==> slots[j] == front[j]
    requires forall j :: k < j < |slots| ==> slots[j] == front[j - 1]
    ensures slots == front[..k] + [key] + front[k..]
  {
  }

  lemma ShiftedContents(front: seq<CarRecord>, key: CarRecord, k: nat)
    requires k <= |front|
    ensures multiset(front[..k] + [key] + front[k..]) == multiset(front) + multiset{key}
  {
    assert front == front[..k] + front[k..];
  }

  lemma ShowsOnce(records: seq<CarRecord>, q: seq<Entry>, r: seq<Entry>)
    requires Shows(records, q) && Shows(records, r)
    ensures q == r
  {
  }

  lemma SortOfOne(q: seq<Entry>)
    requires |q| == 1
    ensures Sort(q) == q
  {
  }

  lemma SortNext(q: seq<Entry>, i: nat)
    requires i < |q|
    ensures Sort(q[..i + 1]) == Insert(Sort(q[..i]), q[i])
  {
    assert q[..i + 1][..i] == q[..i];
  }

  class PriorityQueue {
    const cars: array<CarRecord?>
    var size: nat
    var queueSem: nat

    ghost predicate Valid()
      reads this, cars
    {
      Filled(size)
    }

    ghost predicate Filled(n: nat)
      reads cars
    {
      n <= cars.Length && forall j :: 0 <= j < n ==> cars[j] != null
    }

    ghost function Front(n: nat): (s: seq<CarRecord>)
      requires Filled(n)
      reads cars
      ensures |s| == n && forall j :: 0 <= j < n ==> s[j] == cars[j]
    {
      cars[..n]
    }

    ghost function Contents(): seq<CarRecord>
      requires Valid()
      reads this, cars
    {
      Front(size)
    }

    /** The queue as CarQueue sees it. */
    ghost function View(): (q: seq<Entry>)
      requires Valid()
      reads this, cars, Contents()
      ensures Shows(Contents(), q)
    {
      Entries(Contents())
    }

    constructor (capacity: nat)
      ensures Valid() && fresh(cars) && cars.Length == capacity
      ensures Contents() == [] && queueSem == 0
    {
      cars := new CarRecord?[capacity](_ => null);
      size, queueSem := 0, 0;
    }

    /** The shifting loop shared by pq_insert and insertion_sort: slot n is free, and every one
        of the first n records that key beats moves up by one, from the back to the first that
        it does not beat. */
    method MakeRoom(key: CarRecord, n: nat, ghost front: seq<CarRecord>) returns (k: nat)
      requires n < cars.Length && Filled(n) && front == Front(n)
      modifies cars
      ensures k <= n
      ensures forall j :: 0 <= j < k ==> cars[j] == front[j]
      ensures forall j :: k < j <= n ==> cars[j] == front[j - 1]
      ensures forall j :: n < j < cars.Length ==> cars[j] == old(cars[j])
      ensures forall j :: k <= j < n ==> Before(key.View(), front[j].View())
      ensures k > 0 ==> !Before(key.View(), front[k - 1].View())
    {
      var i := n - 1;
      while i >= 0 && (key.priority > cars[i].priority ||
                       (key.priority == cars[i].priority && key.enterTime < cars[i].enterTime))
        invariant -1 <= i < n
        invariant forall j :: 0 <= j <= i ==> cars[j] == front[j]
        invariant forall j :: i + 1 < j <= n ==> cars[j] == front[j - 1]
        invariant forall j :: n < j < cars.Length ==> cars[j] == old(cars[j])
        invariant forall j :: i < j < n ==> Before(key.View(), front[j].View())
      {
        cars[i + 1] := cars[i];
        i := i - 1;
      }
      k := i + 1;
    }

    /** The loop and the store behind it. */
    method ShiftIn(key: CarRecord, n: nat, ghost front: seq<CarRecord>) returns (k: nat)
      requires n < cars.Length && Filled(n) && front == Front(n)
      modifies cars
      ensures k <= n && Filled(n + 1)
      ensures Front(n + 1) == front[..k] + [key] + front[k..]
      ensures forall j :: k <= j < n ==> Before(key.View(), front[j].View())
      ensures k > 0 ==> !Before(key.View(), front[k - 1].View())
      ensures forall j :: n < j < cars.Length ==> cars[j] == old(cars[j])
    {
      hide Before;
      k := MakeRoom(key, n, front);
      cars[k] := key;
      ShiftMakesRoom(cars[..n + 1], front, key, k);
    }

    /** pq_insert: false means the queue was full and nothing happened. */
    method Add(car: CarRecord) returns (ok: bool)
      requires Valid()
      modifies this`size, this`queueSem, cars
      ensures Valid()
      ensures ok == (old(size) < cars.Length)
      ensures ok ==> queueSem == old(queueSem) + 1
      ensures ok ==> View() == Insert(old(View()), car.View())
      ensures ok ==> multiset(Contents()) == old(multiset(Contents())) + multiset{car}
      ensures !ok ==> Contents() == old(Contents()) && queueSem == old(queueSem)
    {
      hide Insert, Before, Shows;
      if size >= cars.Length {
        return false;
      }
      ghost var before := Contents();
      ghost var q := View();
      var k := ShiftIn(car, size, before);
      size := size + 1;
      queueSem := queueSem + 1;
      assert Contents() == before[..k] + [car] + before[k..];
      ShiftedIsInserted(before, q, car, k);
      ShiftedContents(before, car, k);
      ShowsOnce(Contents(), View(), Insert(q, car.View()));
      ok := true;
    }

    /** pq_pop: null means the queue was empty. */
    method Pop() returns (car: CarRecord?)
      requires Valid()
      modifies this`size, cars
      ensures Valid()
      ensures old(size) == 0 ==> car == null && Contents() == old(Contents())
      ensures old(size) > 0 ==> car == old(Contents())[0] && Contents() == old(Contents())[1..]
    {
      if size == 0 {
        return null;
      }
      car := cars[0];
      ghost var before := Contents();
      var i := 0;
      while i < size - 1
        invariant 0 <= i <= size - 1 && size == |before|
        invariant forall j :: 0 <= j < i ==> cars[j] == before[j + 1]
        invariant forall j :: i <= j < size ==> cars[j] == before[j]
      {
        cars[i] := cars[i + 1];
        i := i + 1;
      }
      size := size - 1;
      assert Contents() == before[1..];
    }

    /** One turn of insertion_sort's outer loop. */
    method SortOneMore(i: nat, ghost sorted: seq<Entry>)
      requires i < size && Filled(size) && Shows(Front(i), sorted)
      modifies cars
      ensures Filled(size)
      ensures Shows(Front(i + 1), Insert(sorted, old(cars[i].View())))
      ensures multiset(Front(size)) == old(multiset(Front(size)))
      ensures forall j :: i < j < size ==> cars[j] == old(cars[j])
    {
      hide Insert;
      var key := cars[i];
      ghost var front, tail := Front(i), Front(size)[i + 1..];
      assert Front(size) == front + [key] + tail;
      var k := ShiftIn(key, i, front);
      ShiftedIsInserted(front, sorted, key, k);
      ShiftedContents(front, key, k);
      assert Front(size) == Front(i + 1) + tail;
    }

    /** insertion_sort's loop, for an array that shows q. */
    method SortFront(ghost q: seq<Entry>)
      requires Filled(size) && Shows(Front(size), q)
      modifies cars
      ensures Filled(size) && Shows(Front(size), Sort(q))
      ensures multiset(Front(size)) == old(multiset(Front(size)))
    {
      hide Sort, Insert, Before;
      if size == 0 {
        return;
      }
      ghost var before := Front(size);
      SortOfOne(q[..1]);
      var i := 1;
      while i < size
        invariant 1 <= i <= size == |q| && Filled(size)
        invariant forall j :: i <= j < size ==> cars[j] == before[j]
        invariant Shows(before, q)
        invariant multiset(Front(size)) == multiset(before)
        invariant Shows(Front(i), Sort(q[..i]))
      {
        SortNext(q, i);
        SortOneMore(i, Sort(q[..i]));
        i := i + 1;
      }
      assert q[..size] == q;
    }

    method InsertionSort()
      requires Valid()
      modifies cars
      ensures Valid()
      ensures View() == Sort(old(View()))
      ensures multiset(Contents()) == old(multiset(Contents()))
    {
      SortFront(View());
    }

    /** One pass of the monitor under the queue's mutex. */
    method Promote(now: int, threshold: real)
      requires Valid()
      modifies cars, Contents()
      ensures Valid()
      ensures View() == Sort(AgeAll(old(View()), now, threshold))
      ensures multiset(Contents()) == old(multiset(Contents()))
    {
      ghost var before := Contents();
      ghost var q := View();
      var i := 0;
      while i < size
        invariant 0 <= i <= size
        invariant Valid() && Contents() == before
        invariant forall j :: 0 <= j < i ==> before[j].View() == Aged(q[j], now, threshold)
        invariant forall j :: i <= j < size ==> before[j].View() == q[j] || before[j].View() == Aged(q[j], now, threshold)
      {
        if cars[i].priority == 0 && (now - cars[i].enterTime) as real >= threshold {
          cars[i].priority := 1;
        }
        i := i + 1;
      }
      assert View() == AgeAll(q, now, threshold);
      InsertionSort();
    }
  }
}
