/** The Redis commands the services use, over one key space with expiring keys. Times are
    milliseconds. */
module RedisModel {
  import opened Domain

  datatype Value<+D> = Number(n: int) | Document(doc: D)

  datatype Cell<+D> = Cell(value: Value<D>, expireAt: Option<nat>)

  type Store<D> = map<string, Cell<D>>

  /** What becomes of one request to Redis: it is answered, it fails before it runs, or it runs and
      its reply is lost. Both failures look alike to the caller. */
  datatype Fate = Answered | Refused | ReplyLost

  predicate Live<D>(s: Store<D>, key: string, now: nat) {
    key in s && (s[key].expireAt.None? || now < s[key].expireAt.value)
  }

  /** GET */
  function GetOf<D>(s: Store<D>, key: string, now: nat): Option<Value<D>> {
    if Live(s, key, now) then Some(s[key].value) else None
  }

  /** SET key value NX */
  function SetNxOf<D>(s: Store<D>, key: string, value: Value<D>, now: nat): Store<D> {
    if Live(s, key, now) then s else s[key := Cell(value, None)]
  }

  /** SET key value EX */
  function SetExOf<D>(s: Store<D>, key: string, value: Value<D>, now: nat, ttl: nat): Store<D> {
    s[key := Cell(value, Some(now + ttl))]
  }

  /** INCR; a key that does not hold a number is an error and stays as it is. */
  function IncrOf<D>(s: Store<D>, key: string, now: nat): (Store<D>, Option<int>) {
    if !Live(s, key, now) then (s[key := Cell(Number(1), None)], Some(1))
    else match s[key].value
      case Document(_) => (s, None)
      case Number(n) => (s[key := Cell(Number(n + 1), s[key].expireAt)], Some(n + 1))
  }

  /** EXPIRE */
  function ExpireOf<D>(s: Store<D>, key: string, now: nat, ttl: nat): Store<D> {
    if Live(s, key, now) then s[key := s[key].(expireAt := Some(now + ttl))] else s
  }

  /** TTL answers -2 for a missing key, -1 for one that never expires, and otherwise the remaining
      time rounded to the nearest second. */
  function TtlOf<D>(s: Store<D>, key: string, now: nat): int {
    if !Live(s, key, now) then -2
    else if s[key].expireAt.None? then -1
    else (s[key].expireAt.value - now + 500) / 1000
  }

  /** One Redis server, updated in place. */
  class Redis<D> {
    var cells: Store<D>

    constructor ()
      ensures cells == map[]
    {
      cells := map[];
    }

    method Get(key: string, now: nat) returns (value: Option<Value<D>>)
      ensures value == GetOf(cells, key, now)
    {
      value := if key in cells && (cells[key].expireAt.None? || now < cells[key].expireAt.value)
        then Some(cells[key].value) else None;
    }

    method SetNx(key: string, value: Value<D>, now: nat)
      modifies this
      ensures cells == SetNxOf(old(cells), key, value, now)
    {
      if !Live(cells, key, now) {
        cells := cells[key := Cell(value, None)];
      }
    }

    method SetEx(key: string, value: Value<D>, now: nat, ttl: nat)
      modifies this
      ensures cells == SetExOf(old(cells), key, value, now, ttl)
    {
      cells := cells[key := Cell(value, Some(now + ttl))];
    }

    method Incr(key: string, now: nat) returns (count: Option<int>)
      modifies this
      ensures (cells, count) == IncrOf(old(cells), key, now)
    {
      if !Live(cells, key, now) {
        cells := cells[key := Cell(Number(1), None)];
        return Some(1);
      }
      match cells[key].value
      case Document(_) =>
        count := None;
      case Number(n) =>
        cells := cells[key := Cell(Number(n + 1), cells[key].expireAt)];
        count := Some(n + 1);
    }

    method Delete(key: string)
      modifies this
      ensures cells == old(cells) - {key}
    {
      cells := cells - {key};
    }

    method Expire(key: string, now: nat, ttl: nat)
      modifies this
      ensures cells == ExpireOf(old(cells), key, now, ttl)
    {
      if Live(cells, key, now) {
        cells := cells[key := cells[key].(expireAt := Some(now + ttl))];
      }
    }

    method Ttl(key: string, now: nat) returns (seconds: int)
      ensures seconds == TtlOf(cells, key, now)
    {
      if !Live(cells, key, now) {
        seconds := -2;
      } else if cells[key].expireAt.None? {
        seconds := -1;
      } else {
        seconds := (cells[key].expireAt.value - now + 500) / 1000;
      }
    }
  }
}
