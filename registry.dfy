/** The process-wide list of serials owned by live sessions (`m_busy`,
    src/blink1.cpp:40, 363-387). Entries are `wchar_t` buffers: they are found
    by content, but stored and compared as pointers. */
module Registry {
  import opened CTypes

  /** A `wchar_t` serial buffer. `chars` is its content up to the terminator;
      the object's identity is the buffer's address. */
  class SerialBuffer {
    const chars: seq<char>

    constructor (chars: seq<char>)
      ensures this.chars == chars
    {
      this.chars := chars;
    }
  }

  /** `m_busy`, a static vector of the serial buffers that sessions registered. */
  class BusyRegistry {
    var busy: seq<SerialBuffer>

    constructor ()
      ensures busy == []
    {
      busy := [];
    }

    /** Some entry holds the same characters as `s` (`wcscmp` is zero). */
    predicate Busy(s: seq<char>)
      reads this
    {
      exists j :: 0 <= j < |busy| && busy[j].chars == s
    }

    /** No two entries hold the same serial. */
    predicate Distinct()
      reads this
    {
      forall i, j :: 0 <= i < j < |busy| ==> busy[i].chars != busy[j].chars
    }

    /** `SerialBusy`: a scan of the entries, comparing contents. */
    method SerialBusy(s: SerialBuffer) returns (found: bool)
      ensures found <==> Busy(s.chars)
    {
      var j := 0;
      while j < |busy|
        invariant 0 <= j <= |busy|
        invariant forall k :: 0 <= k < j ==> busy[k].chars != s.chars
      {
        if busy[j].chars == s.chars {
          return true;
        }
        j := j + 1;
      }
      return false;
    }

    /** The position of the first enumerated serial, from `i` on, that no
        session holds. */
    function FirstFreeFrom(enumerated: seq<SerialBuffer>, i: nat): (r: Option<nat>)
      reads this
      ensures r.None? <==> forall k :: i <= k < |enumerated| ==> Busy(enumerated[k].chars)
      ensures r.Some? ==> (
        && i <= r.value < |enumerated|
        && !Busy(enumerated[r.value].chars)
        && forall k :: i <= k < r.value ==> Busy(enumerated[k].chars))
      decreases |enumerated| - i
    {
      if i >= |enumerated| then None
      else if !Busy(enumerated[i].chars) then Some(i)
      else FirstFreeFrom(enumerated, i + 1)
    }

    /** `GetNextSerial` over the serials the transport enumerated: the first
        one no session holds, or NULL when every one is held. */
    method GetNextSerial(enumerated: seq<SerialBuffer>) returns (s: SerialBuffer?)
      ensures FirstFreeFrom(enumerated, 0).None? ==> s == null
      ensures FirstFreeFrom(enumerated, 0).Some? ==> s == enumerated[FirstFreeFrom(enumerated, 0).value]
    {
      var i := 0;
      while i < |enumerated|
        invariant 0 <= i <= |enumerated|
        invariant forall k :: 0 <= k < i ==> Busy(enumerated[k].chars)
      {
        var held := SerialBusy(enumerated[i]);
        if !held {
          return enumerated[i];
        }
        i := i + 1;
      }
      return null;
    }
  }
}
