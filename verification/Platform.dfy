/**
 The world outside the library: a clock, the network stack and one transport per connection slot.
 Every answer they give is arbitrary within what their contracts say, and is noted in a log that the
 library never reads.
 */
module Platform {
  import opened Common

  /**
   A millisecond counter that wraps at 2^64. `ticks` is true time; it never goes back, moves by
   less than 2^63 between two readings, and cannot stand still for ever: `stalls` bounds how many
   more readings may show no progress.
   */
  class Clock {
    var ticks: nat
    var stalls: nat
    ghost var micros: seq<uint64>   // the readings of the second counter

    method MonotonicMilliseconds() returns (now: uint64)
      modifies this
      ensures now == ticks % TWO_64
      ensures old(ticks) <= ticks < old(ticks) + TWO_64 / 2
      ensures ticks > old(ticks) || (ticks == old(ticks) && stalls < old(stalls))
      ensures micros == old(micros)
    {
      var step: nat :| step < TWO_64 / 2;
      if step == 0 && stalls > 0 {
        stalls := stalls - 1;
      } else {
        ticks := ticks + if step == 0 then 1 else step;
        stalls := *;
      }
      now := ticks % TWO_64;
    }

    /** A counter of its own; how it moves is not restricted. */
    method MonotonicMicroseconds() returns (now: uint64)
      modifies this`micros
      ensures micros == old(micros) + [now]
    {
      now := *;
      micros := micros + [now];
    }
  }

  /** What the network stack answers when the driver polls. */
  datatype Surroundings = Surroundings(ready: bool, begun: bool, listening: bool, client: bool, clientStays: bool)

  class NetworkStack {
    ghost var looks: seq<Surroundings>

    constructor ()
      ensures looks == []
    {
      looks := [];
    }

    method LookAround() returns (around: Surroundings)
      modifies this
      ensures looks == old(looks) + [around]
    {
      around := *;
      looks := looks + [around];
    }
  }

  /** The application's hook for a lost controller. */
  class LossHook {
    ghost var runs: nat

    constructor ()
      ensures runs == 0
    {
      runs := 0;
    }

    method Run()
      modifies this
      ensures runs == old(runs) + 1
    {
      runs := runs + 1;
    }
  }

  datatype Link = Open | BytesAvailable | Closed | Down

  /** What a transport was seen to say: the state of its link, or bytes read from it. */
  datatype Sight = Saw(link: Link) | Took(bytes: string)

  /**
   The byte stream of one connection slot. `received` is what the current peer was sent, `sights`
   all that was seen of it; `available` bounds the bytes that can be read before the network makes
   progress again.
   */
  class Transport {
    var received: string
    ghost var sights: seq<Sight>
    var flushes: nat
    var available: nat

    constructor ()
      ensures received == "" && sights == []
    {
      received, sights, flushes, available := "", [], 0, 0;
    }

    /** A new peer takes the slot. */
    method Reset()
      modifies this
      ensures received == "" && sights == []
    {
      received, sights, flushes, available := "", [], 0, *;
    }

    method WriteSome(data: string) returns (written: nat)
      modifies this`received
      ensures written <= |data| && received == old(received) + data[..written]
    {
      written :| 0 <= written <= |data|;
      received := received + data[..written];
    }

    method Flush()
      modifies this`flushes
      ensures flushes == old(flushes) + 1
    {
      flushes := flushes + 1;
    }

    method ConnectionState() returns (link: Link)
      modifies this`sights
      ensures sights == old(sights) + [Saw(link)]
      ensures link == BytesAvailable ==> available > 0
    {
      link := *;
      if link == BytesAvailable && available == 0 {
        link := Open;
      }
      sights := sights + [Saw(link)];
    }

    method ReadSome(buffer: array<char>) returns (read: nat)
      modifies this`available, this`sights, buffer
      ensures read <= buffer.Length && read <= old(available) && available == old(available) - read
      ensures sights == old(sights) + [Took(buffer[..read])]
    {
      read :| 0 <= read <= buffer.Length && read <= available;
      for k := 0 to read
        invariant available == old(available) && sights == old(sights)
      {
        buffer[k] := *;
      }
      available := available - read;
      sights := sights + [Took(buffer[..read])];
    }

    /** Time for the network to make progress: more bytes may have arrived. */
    method Progress()
      modifies this`available
    {
      available := *;
    }
  }
}
