/** The queue's methods as steps of the service centre: what they do to the array of pointers is
    what the transition system does to its queue. */
module GarageQueue {
  import opened CarQueue
  import opened GarageModel
  import opened GarageInvariants
  import opened PriorityQueueInPlace
  import opened Wrappers

  /** A monitor pass. */
  method PassStep(pq: PriorityQueue, now: int, threshold: real, ghost c: Config, ghost s: State)
    requires pq.Valid() && pq.View() == s.queue
    requires Enabled(c, s, MonitorPass(now)) && threshold == c.threshold
    modifies pq.cars, pq.Contents()
    ensures pq.Valid() && pq.View() == Next(c, s, MonitorPass(now)).queue
    ensures multiset(pq.Contents()) == old(multiset(pq.Contents()))
  {
    hide Sort;
    pq.Promote(now, threshold);
  }

  /** pq_insert by car i, up to its post. */
  method InsertStep(pq: PriorityQueue, car: CarRecord, ghost c: Config, ghost s: State) returns (ok: bool)
    requires pq.Valid() && pq.View() == s.queue && pq.cars.Length == c.cars && pq.queueSem == s.queueSem
    requires CarEnabled(s, car.id) && s.cars[car.id].pc == Insert
    requires car.priority == s.cars[car.id].priority && car.enterTime == s.cars[car.id].enterTime
    modifies pq`size, pq`queueSem, pq.cars
    ensures pq.Valid() && pq.View() == Next(c, s, CarStep(car.id)).queue
    ensures ok <==> Next(c, s, CarStep(car.id)).cars[car.id].pc == QueuePost
    ensures ok ==> pq.queueSem == Next(c, Next(c, s, CarStep(car.id)), CarStep(car.id)).queueSem
  {
    assert |s.queue| == pq.size;
    CarMovesQueue(c, s, car.id);
    CarMovesThroughQueue(c, s, car.id);
    hide CarQueue.Insert;
    ok := pq.Add(car);
  }

  /** pq_pop by the manager. */
  method PopStep(pq: PriorityQueue, ghost c: Config, ghost s: State) returns (car: CarRecord?)
    requires pq.Valid() && pq.View() == s.queue && ManagerEnabled(s) && s.manager == PopQueue
    modifies pq`size, pq.cars
    ensures pq.Valid() && pq.View() == Next(c, s, ManagerStep).queue
    ensures car == null ==> Next(c, s, ManagerStep).manager == ReturnSlot
    ensures car != null ==> Next(c, s, ManagerStep).manager == PostCar(car.id)
  {
    ghost var records := pq.Contents();
    car := pq.Pop();
    assert pq.View() == (if records == [] then s.queue else s.queue[1..]);
  }
}
