/**
 * The per-license seat counter kept in `user_count_<key>.txt`.  The files are
 * a map from license key to the stored integer; a key whose file content does
 * not parse as an integer is recorded in `unreadable` with the text of the
 * error `int()` raises.  A key with no file reads as 0.  Each claim is one
 * sequential read-compare-write step.
 */
module SeatStore {

  datatype ReadResult = Read(count: int) | ReadFailed(error: string)

  /** What one seat check observed: a granted claim (with the new count), a
      status check below the limit, the limit reached, or an unreadable file. */
  datatype Seat = Granted(count: int) | Available(count: int) | AtLimit(count: int) | Unreadable(error: string)

  /** The decision both Python engines take on a counter value. */
  function SeatOutcome(read: ReadResult, limit: int, claiming: bool): (s: Seat)
    ensures s.Unreadable? <==> read.ReadFailed?
    ensures s.AtLimit? <==> read.Read? && read.count >= limit
    ensures s.AtLimit? ==> s.count == read.count
    ensures s.Granted? <==> claiming && read.Read? && read.count < limit
    ensures s.Granted? ==> s.count == read.count + 1 && s.count <= limit
    ensures s.Available? <==> !claiming && read.Read? && read.count < limit
    ensures s.Available? ==> s.count == read.count
  {
    match read
    case ReadFailed(e) => Unreadable(e)
    case Read(c) =>
      if c >= limit then AtLimit(c)
      else if claiming then Granted(c + 1)
      else Available(c)
  }

  class SeatCounter {
    var counts: map<string, int>
    var unreadable: map<string, string>

    constructor ()
      ensures counts == map[] && unreadable == map[]
    {
      counts := map[];
      unreadable := map[];
    }

    /** What reading the counter file of `key` yields. */
    function Stored(key: string): (r: ReadResult)
      reads this
      ensures r.ReadFailed? <==> key in unreadable
      ensures key !in unreadable && key !in counts ==> r == Read(0)
      ensures key !in unreadable && key in counts ==> r == Read(counts[key])
    {
      if key in unreadable then ReadFailed(unreadable[key])
      else if key in counts then Read(counts[key])
      else Read(0)
    }

    /** A status read: never writes the file. */
    method Peek(key: string) returns (r: ReadResult)
      ensures r == Stored(key)
    {
      if key in unreadable {
        r := ReadFailed(unreadable[key]);
      } else if key in counts {
        r := Read(counts[key]);
      } else {
        r := Read(0);
      }
    }

    /** Read, compare with the limit, and write count + 1 only below the limit. */
    method Claim(key: string, limit: int) returns (s: Seat)
      modifies this
      ensures s == SeatOutcome(old(Stored(key)), limit, true)
      ensures counts == if s.Granted? then old(counts)[key := s.count] else old(counts)
      ensures unreadable == old(unreadable)
    {
      var current := Peek(key);
      s := SeatOutcome(current, limit, true);
      if s.Granted? {
        counts := counts[key := s.count];
      }
    }
  }

  /** Final count and number of granted claims after `n` claims in a row. */
  function ClaimRun(start: int, limit: int, n: nat): (int, nat)
    decreases n
  {
    if n == 0 then (start, 0)
    else
      match SeatOutcome(Read(start), limit, true)
      case Granted(c) => var (f, g) := ClaimRun(c, limit, n - 1); (f, g + 1)
      case _ => var (f, g) := ClaimRun(start, limit, n - 1); (f, g)
  }

  function Min(a: int, b: int): int { if a <= b then a else b }

  /** However many claims arrive one after another, exactly the free seats are
      handed out and the count never passes the limit. */
  lemma {:induction false} ClaimRunGrantsFreeSeats(start: int, limit: int, n: nat)
    ensures ClaimRun(start, limit, n).1 == if start >= limit then 0 else Min(n, limit - start)
    ensures ClaimRun(start, limit, n).0 == start + ClaimRun(start, limit, n).1
    ensures start <= limit ==> ClaimRun(start, limit, n).0 <= limit
    decreases n
  {
    if n > 0 {
      if start < limit {
        ClaimRunGrantsFreeSeats(start + 1, limit, n - 1);
      } else {
        ClaimRunGrantsFreeSeats(start, limit, n - 1);
      }
    }
  }

  /** Two claims against one free seat: one succeeds, one fails, and the count ends at 1. */
  method TwoClaimsOneSeat(key: string) returns (first: Seat, second: Seat, final: ReadResult)
    ensures first == Granted(1) && second == AtLimit(1) && final == Read(1)
  {
    var store := new SeatCounter();
    first := store.Claim(key, 1);
    second := store.Claim(key, 1);
    final := store.Peek(key);
  }
}
