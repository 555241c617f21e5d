/** The object store: conditional puts over a map, and the faults that are injected around them. */
module ObjectStores {
  import opened Bytes
  import opened Crc32c
  import opened Wrappers

  datatype Object = Object(data: bytes, etag: nat)

  datatype Mode = Create | Update(etag: nat) | Overwrite

  datatype Refusal = AlreadyExists | PreconditionFailed

  /** A write that landed. */
  datatype Write = Write(path: bytes, data: bytes)

  // ---------------------------------------------------------------- the history of writes

  /** The latest write to a path. */
  function LastWrite(history: seq<Write>, path: bytes): (k: Option<nat>)
    ensures k.Some? ==> k.value < |history| && history[k.value].path == path
  {
    if history == [] then None
    else if history[|history| - 1].path == path then Some(|history| - 1)
    else LastWrite(history[..|history| - 1], path)
  }

  /** The successive contents of a path. */
  function VersionsOf(history: seq<Write>, path: bytes): seq<bytes> {
    if history == [] then []
    else
      var last := history[|history| - 1];
      VersionsOf(history[..|history| - 1], path) + if last.path == path then [last.data] else []
  }

  /** What a read of a path returns. */
  function Current(history: seq<Write>, path: bytes): Option<Object> {
    match LastWrite(history, path)
    case None => None
    case Some(k) => Some(Object(history[k].data, k + 1))
  }

  /** Whether a put of that mode lands now. */
  predicate Lands(history: seq<Write>, path: bytes, mode: Mode) {
    match mode
    case Create => LastWrite(history, path).None?
    case Update(etag) => LastWrite(history, path).Some? && etag == LastWrite(history, path).value + 1
    case Overwrite => true
  }

  /** The current content is the last version. */
  lemma {:induction false} CurrentIsLast(history: seq<Write>, path: bytes)
    ensures Current(history, path).None? <==> VersionsOf(history, path) == []
    ensures Current(history, path).Some? ==>
              var vs := VersionsOf(history, path);
              vs != [] && Current(history, path).value.data == vs[|vs| - 1]
    decreases |history|
  {
    if history != [] {
      CurrentIsLast(history[..|history| - 1], path);
    }
  }

  /** Between two moments the latest write to a path is the same one exactly when no version was added. */
  lemma {:induction false} UnchangedIff(before: seq<Write>, after: seq<Write>, path: bytes)
    requires before <= after
    ensures VersionsOf(before, path) <= VersionsOf(after, path)
    ensures LastWrite(after, path) == LastWrite(before, path) <==>
            |VersionsOf(after, path)| == |VersionsOf(before, path)|
    ensures LastWrite(before, path).Some? ==> LastWrite(after, path).Some?
    decreases |after|
  {
    if |before| < |after| {
      UnchangedIff(before, after[..|after| - 1], path);
    } else {
      assert before == after;
    }
  }

  /** A conditional update lands exactly when the object has had no new version since the read its ETag came from,
      whatever happened to other objects; a conditional create exactly when the object has none. */
  lemma SwapIsExact(before: seq<Write>, after: seq<Write>, path: bytes)
    requires before <= after
    ensures match Current(before, path)
            case Some(o) =>
              Lands(after, path, Update(o.etag)) <==> |VersionsOf(after, path)| == |VersionsOf(before, path)|
            case None => Lands(after, path, Create) <==> |VersionsOf(after, path)| == |VersionsOf(before, path)|
  {
    UnchangedIff(before, after, path);
    CurrentIsLast(before, path);
    CurrentIsLast(after, path);
  }

  // ---------------------------------------------------------------- the in-memory store

  class InMemory {
    var objects: map<bytes, Object>
    var etagSeq: nat
    ghost var history: seq<Write>

    /** The map is the current state of every path, and ETags count the writes. */
    ghost predicate Valid()
      reads this
    {
      && etagSeq == |history|
      && forall path :: Shows(path)
    }

    ghost predicate Shows(path: bytes)
      reads this
    {
      match Current(history, path)
      case None => path !in objects
      case Some(o) => path in objects && objects[path] == o
    }

    constructor ()
      ensures Valid() && history == []
    {
      objects, etagSeq, history := map[], 0, [];
    }

    method Get(path: bytes) returns (r: Option<Object>)
      requires Valid()
      ensures r == Current(history, path)
    {
      assert Shows(path);
      r := if path in objects then Some(objects[path]) else None;
    }

    method PutOpts(path: bytes, data: bytes, mode: Mode) returns (refused: Option<Refusal>)
      requires Valid()
      modifies this
      ensures Valid()
      ensures refused.None? <==> Lands(old(history), path, mode)
      ensures refused == Some(AlreadyExists) ==> mode.Create?
      ensures refused == Some(PreconditionFailed) ==> mode.Update?
      ensures history == if refused.None? then old(history) + [Write(path, data)] else old(history)
    {
      assert Shows(path);
      if mode.Create? {
        if path in objects {
          return Some(AlreadyExists);
        }
      } else if mode.Update? {
        if path !in objects || objects[path].etag != mode.etag {
          return Some(PreconditionFailed);
        }
      }
      etagSeq := etagSeq + 1;
      objects := objects[path := Object(data, etagSeq)];
      history := history + [Write(path, data)];
      forall q
        ensures Shows(q)
      {
        assert old(Shows(q));
        WrittenShows(old(history), path, data, q);
      }
      refused := None;
    }
  }

  lemma WrittenShows(history: seq<Write>, path: bytes, data: bytes, q: bytes)
    ensures Current(history + [Write(path, data)], q) ==
            if q == path then Some(Object(data, |history| + 1)) else Current(history, q)
  {
    assert (history + [Write(path, data)])[..|history|] == history;
  }

  // ---------------------------------------------------------------- injected faults

  /** A put passes through, fails before it reaches the store, or has its response lost. */
  datatype Fault = NoFault | CleanFailure | ResponseLost

  datatype Answer = Stored | Refused(why: Refusal) | Injected

  class SimStore {
    const inner: InMemory

    constructor (inner: InMemory)
      ensures this.inner == inner
    {
      this.inner := inner;
    }

    /** Success means the write landed, a refusal means it did not, and an injected error means either. */
    method PutOpts(path: bytes, data: bytes, mode: Mode, fault: Fault) returns (a: Answer)
      requires inner.Valid()
      modifies inner
      ensures inner.Valid()
      ensures var lands := Lands(old(inner.history), path, mode);
              && inner.history == (if lands && !fault.CleanFailure? then old(inner.history) + [Write(path, data)]
                                   else old(inner.history))
              && (a.Stored? <==> lands && fault.NoFault?)
              && (a.Refused? <==> !lands && !fault.CleanFailure?)
    {
      if fault.CleanFailure? {
        return Injected;
      }
      var refused := inner.PutOpts(path, data, mode);
      match refused {
        case Some(why) => a := Refused(why);
        case None => a := if fault.ResponseLost? then Injected else Stored;
      }
    }

    /** A read fails, or returns the object, with one byte inverted if the fault says so. */
    method Get(path: bytes, fails: bool, flip: Option<nat>) returns (r: Option<bytes>)
      requires inner.Valid()
      ensures fails ==> r.None?
      ensures !fails ==> (r.None? <==> Current(inner.history, path).None?)
      ensures r.Some? ==>
                var d := Current(inner.history, path).value.data;
                if flip.Some? && d != [] then
                  var i := flip.value % |d|;
                  DifferAt(d, r.value, i) && r.value[i] == 255 - d[i]
                else r.value == d
    {
      if fails {
        return None;
      }
      var o := inner.Get(path);
      if o.None? {
        return None;
      }
      var d := o.value.data;
      if flip.Some? && d != [] {
        d := FlipByte(d, flip.value % |d|);
      }
      r := Some(d);
    }
  }

  /** One byte inverted. */
  method FlipByte(d: bytes, i: nat) returns (r: bytes)
    requires i < |d|
    ensures DifferAt(d, r, i) && r[i] == 255 - d[i]
  {
    r := d[i := 255 - d[i]];
  }
}
