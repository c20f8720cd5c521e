/** The decoder as it runs: over a stream of bytes that every step takes from. */
module CodecStreams {
  import opened Bytes
  import opened Wrappers
  import opened Fcalls
  import opened Wire

  class Decoder {
    var reader: seq<u8>

    constructor (reader: seq<u8>)
      ensures this.reader == reader
    {
      this.reader := reader;
    }

    /** One value; after an error the stream is left as it was. */
    method Decode<T>(read: seq<u8> -> Read<T>) returns (r: Result<T, DecodeError>)
      modifies this
      ensures match read(old(reader))
              case Ok((x, rest)) => r == Ok(x) && reader == rest
              case Err(e) => r == Err(e) && reader == old(reader)
    {
      match read(reader) {
        case Ok((x, rest)) =>
          reader := rest;
          return Ok(x);
        case Err(e) =>
          return Err(e);
      }
    }

    /** So many values. */
    method DecodeEach<T>(read: seq<u8> -> Read<T>, count: nat) returns (r: Result<seq<T>, DecodeError>)
      modifies this
      ensures match REach(read, count, old(reader))
              case Ok((xs, rest)) => r == Ok(xs) && reader == rest
              case Err(e) => r == Err(e)
    {
      var xs: seq<T> := [];
      var i := 0;
      NothingYet(REach(read, count, reader));
      while i < count
        invariant 0 <= i <= count
        invariant REach(read, count, old(reader)) == After(xs, REach(read, count - i, reader))
      {
        var x := Decode(read);
        if x.Err? {
          return Err(x.error);
        }
        AfterMore(xs, x.value, REach(read, count - i - 1, reader));
        xs := xs + [x.value];
        i := i + 1;
      }
      assert xs + [] == xs;
      return Ok(xs);
    }

    method DecodeVec<T>(read: seq<u8> -> Read<T>) returns (r: Result<seq<T>, DecodeError>)
      modifies this
      ensures match RVec(read, old(reader))
              case Ok((xs, rest)) => r == Ok(xs) && reader == rest
              case Err(e) => r == Err(e)
    {
      var count := Decode(R16);
      if count.Err? {
        return Err(count.error);
      }
      r := DecodeEach(read, count.value);
    }

    /** A directory listing, as the code is written. */
    method DecodeEntries() returns (r: Result<seq<DirEntry>, DecodeError>)
      modifies this
      ensures match REntries(AsWritten, old(reader))
              case Ok((entries, rest)) => r == Ok(entries) && reader == rest
              case Err(e) => r == Err(e)
    {
      var count := Decode(R32);
      if count.Err? {
        return Err(count.error);
      }
      r := DecodeEach(REntry, count.value);
    }
  }

  /** What is read after some values have been. */
  function After<T>(xs: seq<T>, r: Read<seq<T>>): Read<seq<T>> {
    match r
    case Ok((ys, rest)) => Ok((xs + ys, rest))
    case Err(e) => Err(e)
  }

  lemma NothingYet<T>(r: Read<seq<T>>)
    ensures After([], r) == r
  {
    if r.Ok? {
      assert [] + r.value.0 == r.value.0;
      assert r.value == (r.value.0, r.value.1);
    }
  }

  lemma AfterMore<T>(xs: seq<T>, x: T, r: Read<seq<T>>)
    ensures After(xs, After([x], r)) == After(xs + [x], r)
  {
    if r.Ok? {
      assert xs + ([x] + r.value.0) == xs + [x] + r.value.0;
    }
  }
}
