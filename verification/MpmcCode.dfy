/**
 `mpmc_queue<T, uint8_t>` as it is written: 8-bit `flag_`, `head_` and `tail_` that
 wrap around, slot flags of 64 bits, and the value `pop` really stores when it claims
 a slot. `Exec` is the specification of one atomic access; `MpmcQueue.Step` performs
 it in place.
 */
module MpmcCode {
  import opened Common
  import opened Indexes
  import opened MpmcProtocol

  /** `invalid_index`, the largest unsigned 64-bit value. */
  const INVALID_INDEX: int := 0xFFFF_FFFF_FFFF_FFFF

  type Thread<T> = Local<T, byte, int>

  datatype State<T> = State(
    max: nat, flag: byte, head: byte, tail: byte,
    data: seq<T>, marks: seq<int>, threads: seq<Thread<T>>,
    reserved: seq<T>, popped: seq<T>)
  {
    predicate Shaped() {
      |data| == SLOTS && |marks| == SLOTS
    }
  }

  function Init<T>(max: nat, blank: T, threads: nat): State<T> {
    State(max, 0, 0, 0, seq(SLOTS, _ => blank), seq(SLOTS, _ => INVALID_INDEX),
          seq(threads, _ => Idle), [], [])
  }

  function Put<T>(s: State<T>, t: nat, l: Thread<T>): State<T>
    requires t < |s.threads|
  {
    s.(threads := s.threads[t := l])
  }

  function Exec<T>(s: State<T>, t: nat, a: Act<T>): (r: State<T>)
    requires s.Shaped()
    ensures r.Shaped()
  {
    if t >= |s.threads| then s
    else match a
      case CallPush(v) => if s.threads[t].AtRest() then Put(s, t, PushFlag(v)) else s
      case CallPop => if s.threads[t].AtRest() then Put(s, t, PopTail) else s
      case Go(weakFails) => Advance(s, t, weakFails)
  }

  function Advance<T>(s: State<T>, t: nat, weakFails: bool): (r: State<T>)
    requires s.Shaped() && t < |s.threads|
    ensures r.Shaped()
  {
    match s.threads[t]
    case Idle | PushDone(_) | PopDone(_) => s
    case PushFlag(v) =>
      Put(s, t, PushTail(v, s.flag))
    case PushTail(v, cur) =>
      if U8(cur + 1) == s.tail || U8(U8(cur + 1) - s.tail) >= s.max then Put(s, t, PushDone(false))
      else Put(s, t, PushReserve(v, cur, s.tail))
    case PushReserve(v, cur, _) =>
      if cur == s.flag && !weakFails then
        Put(s, t, PushWrite(v, cur)).(flag := U8(cur + 1), reserved := s.reserved + [v])
      else Put(s, t, PushTail(v, s.flag))
    case PushWrite(v, cur) =>
      Put(s, t, PushMark(cur)).(data := s.data[cur := v])
    case PushMark(cur) =>
      Put(s, t, PushCheck(cur)).(marks := s.marks[cur := cur])
    case PushCheck(cur) =>
      Put(s, t, PushHead(cur, s.marks[cur]))
    case PushHead(cur, cac) =>
      if cur != s.head || cac != cur then Put(s, t, PushDone(true)) else Put(s, t, PushClaim(cur))
    case PushClaim(cur) =>
      if s.marks[cur] == cur then
        Put(s, t, PushPublish(cur)).(marks := s.marks[cur := INVALID_INDEX])
      else Put(s, t, PushDone(true))
    case PushPublish(cur) =>
      Put(s, t, PushCheck(U8(cur + 1))).(head := U8(cur + 1))
    case PopTail =>
      Put(s, t, PopHead(s.tail))
    case PopHead(curTail) =>
      if curTail == s.head then Put(s, t, PopCheck(s.head)) else Put(s, t, PopRead(curTail))
    case PopCheck(curHead) =>
      if s.marks[curHead] != curHead then Put(s, t, PopDone(None)) else Put(s, t, PopClaim(curHead))
    case PopClaim(curHead) =>
      if s.marks[curHead] == curHead && !weakFails then
        Put(s, t, PopPublish(curHead)).(marks := s.marks[curHead := SIZE_LIMIT])
      else Put(s, t, PopTail)
    case PopPublish(curHead) =>
      Put(s, t, PopTail).(head := U8(curHead + 1))
    case PopRead(curTail) =>
      Put(s, t, PopTake(curTail, s.data[curTail]))
    case PopTake(curTail, v) =>
      if curTail == s.tail && !weakFails then
        Put(s, t, PopDone(Some(v))).(tail := U8(curTail + 1), popped := s.popped + [v])
      else Put(s, t, PopHead(s.tail))
  }

  function Run<T>(s: State<T>, schedule: seq<Choice<T>>): (r: State<T>)
    requires s.Shaped()
    ensures r.Shaped()
    decreases |schedule|
  {
    if schedule == [] then s
    else Run(Exec(s, schedule[0].thread, schedule[0].act), schedule[1..])
  }
}
