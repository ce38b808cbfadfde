/** `TransformChain`: an ordered list of links and the declared shape of
  * its output. Running the chain is a left fold: each link's output is the
  * next link's input, starting from no buffer. */
module TransformChains {
  import opened Wrappers
  import opened BufferTypes
  import opened Buffers
  import opened PyLists
  import opened TransformLinks

  /** The fold `run` performs: feed `input` through `links` in order,
    * stopping at the first failing link. */
  function Fold(links: seq<Link>, input: Option<Buffer>): Result<Option<Buffer>>
    decreases |links|
  {
    if links == [] then Ok(input)
    else
      match Apply(links[0], input)
      case Err(e) => Err(e)
      case Ok(b) => Fold(links[1..], Some(b))
  }

  /** What `run` returns: the fold's final buffer, or a failure when no
    * buffer was produced. */
  function RunResult(links: seq<Link>): Result<Buffer>
  {
    match Fold(links, None)
    case Err(e) => Err(e)
    case Ok(None) => Err(AssertionError)
    case Ok(Some(b)) => Ok(b)
  }

  /** Folding over one more link applies that link to the fold so far. */
  lemma {:induction false} FoldSnoc(links: seq<Link>, last: Link, input: Option<Buffer>)
    ensures Fold(links + [last], input) ==
      match Fold(links, input)
      case Err(e) => Err(e)
      case Ok(x) => (match Apply(last, x) case Err(e) => Err(e) case Ok(b) => Ok(Some(b)))
    decreases |links|
  {
    if links == [] {
      assert links + [last] == [last];
      assert [last][1..] == [];
    } else {
      assert (links + [last])[0] == links[0];
      assert (links + [last])[1..] == links[1..] + [last];
      match Apply(links[0], input)
      case Err(e) =>
      case Ok(b) => FoldSnoc(links[1..], last, Some(b));
    }
  }

  /** The result of a run is the last link's output on the fold of the
    * links before it. */
  lemma RunIsLastOutput(links: seq<Link>, last: Link)
    ensures RunResult(links + [last]) ==
      match Fold(links, None)
      case Err(e) => Err(e)
      case Ok(x) => Apply(last, x)
  {
    FoldSnoc(links, last, None);
  }

  /** A chain with no links produces no buffer and fails. */
  lemma RunEmptyFails()
    ensures RunResult([]) == Err(AssertionError)
  {
  }

  /** Once a link produced a buffer, a non-empty remainder cannot take it
    * away: the fold of non-empty links never ends in "no buffer". */
  lemma {:induction false} FoldNonEmptyProduces(links: seq<Link>, input: Option<Buffer>)
    requires links != []
    ensures Fold(links, input).Ok? ==> Fold(links, input).value.Some?
    decreases |links|
  {
    match Apply(links[0], input)
    case Err(e) =>
    case Ok(b) =>
      if |links| > 1 {
        FoldNonEmptyProduces(links[1..], Some(b));
      }
  }

  /** A chain containing an accessor link always fails, since the accessor
    * is not implemented. */
  lemma {:induction false} AccessorChainFails(links: seq<Link>, input: Option<Buffer>)
    requires exists i :: 0 <= i < |links| && links[i].Accessor?
    ensures Fold(links, input).Err?
    decreases |links|
  {
    if !links[0].Accessor? {
      var i :| 0 <= i < |links| && links[i].Accessor?;
      assert links[1..][i - 1] == links[i];
      AccessorChainFails(links[1..], Some(links[0].buffer));
    }
  }

  /** A chain of immediate links returns the buffer of its last link. */
  lemma {:induction false} ImmediateChainReturnsLast(links: seq<Link>)
    requires links != []
    requires forall i :: 0 <= i < |links| ==> links[i].Immediate?
    ensures RunResult(links) == Ok(links[|links| - 1].buffer)
  {
    var front := links[..|links| - 1];
    assert links == front + [links[|links| - 1]];
    RunIsLastOutput(front, links[|links| - 1]);
    ImmediateFoldSucceeds(front, None);
  }

  lemma {:induction false} ImmediateFoldSucceeds(links: seq<Link>, input: Option<Buffer>)
    requires forall i :: 0 <= i < |links| ==> links[i].Immediate?
    ensures Fold(links, input).Ok?
    decreases |links|
  {
    if links != [] {
      ImmediateFoldSucceeds(links[1..], Some(links[0].buffer));
    }
  }

  class TransformChain {
    var links: seq<Link>
    /** Declared output count, -1 while undefined. */
    const bufferCount: int
    /** Declared output type, None while undefined. */
    const bufferType: Option<BufferType>

    ghost predicate Valid()
    {
      bufferCount >= -1
    }

    /** `TransformChain(count, type)` for a count of -1 or more. */
    constructor (bufferCount: int, bufferType: Option<BufferType>)
      requires bufferCount >= -1
      ensures Valid() && links == []
      ensures this.bufferCount == bufferCount && this.bufferType == bufferType
    {
      links := [];
      this.bufferCount := bufferCount;
      this.bufferType := bufferType;
    }

    /** `is_fully_defined`: both the count and the type are known. */
    predicate IsFullyDefined()
    {
      bufferType.Some? && bufferCount >= 0
    }

    /** `get_buffer_count`: fails unless the chain is fully defined. */
    function GetBufferCount(): (r: Result<nat>)
      ensures r.Ok? <==> IsFullyDefined()
      ensures r.Ok? ==> r.value == bufferCount
      ensures r.Err? ==> r.error == AssertionError
    {
      if bufferType.None? || bufferCount < 0 then Err(AssertionError) else Ok(bufferCount)
    }

    /** `get_buffer_type`: fails unless the chain is fully defined. */
    function GetBufferType(): (r: Result<BufferType>)
      ensures r.Ok? <==> IsFullyDefined()
      ensures r.Ok? ==> Some(r.value) == bufferType
      ensures r.Err? ==> r.error == AssertionError
    {
      if bufferType.None? || bufferCount < 0 then Err(AssertionError) else Ok(bufferType.value)
    }

    /** `add`: append a link at the end. */
    method Add(link: Link)
      modifies this
      ensures links == old(links) + [link]
    {
      links := links + [link];
    }

    /** `remove`: delete the first equal link, or fail when there is none. */
    method Remove(link: Link) returns (r: Result<()>)
      modifies this
      ensures r.Ok? <==> link in old(links)
      ensures r.Ok? ==> links == RemoveFirst(old(links), link)
      ensures r.Err? ==> r.error == ValueError && links == old(links)
    {
      if link !in links {
        return Err(ValueError);
      }
      links := RemoveFirst(links, link);
      return Ok(());
    }

    /** `run`: apply every link in order, each to the previous output, and
      * fail if no buffer came out. The declared count and type are not
      * checked against the result. */
    method Run() returns (r: Result<Buffer>)
      ensures r == RunResult(links)
    {
      var buffer: Option<Buffer> := None;
      var i := 0;
      while i < |links|
        invariant 0 <= i <= |links|
        invariant Fold(links[i..], buffer) == Fold(links, None)
      {
        assert links[i..][1..] == links[i + 1..];
        match Apply(links[i], buffer)
        case Err(e) =>
          return Err(e);
        case Ok(b) =>
          buffer := Some(b);
        i := i + 1;
      }
      assert links[i..] == [];
      if buffer.None? {
        return Err(AssertionError);
      }
      return Ok(buffer.value);
    }
  }

  /** The constructor's check: a negative count other than -1 fails. */
  method NewTransformChain(bufferCount: int, bufferType: Option<BufferType>) returns (r: Result<TransformChain>)
    ensures r.Ok? <==> bufferCount >= -1
    ensures r.Err? ==> r.error == AssertionError
    ensures r.Ok? ==> fresh(r.value) && r.value.Valid() && r.value.links == []
    ensures r.Ok? ==> r.value.bufferCount == bufferCount && r.value.bufferType == bufferType
  {
    if bufferCount < -1 {
      return Err(AssertionError);
    }
    var c := new TransformChain(bufferCount, bufferType);
    return Ok(c);
  }
}
