/** Token-level model of the binary stream primitives the particle code uses
    (writeF1000, writeU32, writeS32, serializeString and their readers).
    A stream is a sequence of typed tokens rather than bytes: the byte layout
    of each primitive is not part of this model. F1000 values are carried as
    integers in thousandths. */
module Wire {

  datatype Option<+T> = None | Some(value: T) {
    predicate IsFailure() { None? }
    function PropagateFailure<U>(): Option<U> requires None? { None }
    function Extract(): T requires Some? { value }
  }

  type u8 = x: int | 0 <= x < 0x100
  type u32 = x: int | 0 <= x < 0x1_0000_0000
  type s32 = x: int | -0x8000_0000 <= x < 0x8000_0000

  /** One primitive value as written by one write call. */
  datatype Token =
    | F1000(milli: int)
    | U32(u: u32)
    | S32(s: s32)
    | Str(text: string)

  /** The kind of a token, what a reader expects to find. */
  datatype Kind = KF1000 | KU32 | KS32 | KStr

  function KindOf(t: Token): (k: Kind) {
    match t
    case F1000(_) => KF1000
    case U32(_) => KU32
    case S32(_) => KS32
    case Str(_) => KStr
  }

  /** Reading an F1000 value at position i succeeds exactly when an F1000
      token is there, and yields its value. */
  function F1000At(ts: seq<Token>, i: nat): (r: Option<int>)
    ensures r.Some? <==> i < |ts| && KindOf(ts[i]) == KF1000
    ensures r.Some? ==> ts[i] == F1000(r.value)
  {
    if i < |ts| && ts[i].F1000? then Some(ts[i].milli) else None
  }

  function U32At(ts: seq<Token>, i: nat): (r: Option<u32>)
    ensures r.Some? <==> i < |ts| && KindOf(ts[i]) == KU32
    ensures r.Some? ==> ts[i] == U32(r.value)
  {
    if i < |ts| && ts[i].U32? then Some(ts[i].u) else None
  }

  function S32At(ts: seq<Token>, i: nat): (r: Option<s32>)
    ensures r.Some? <==> i < |ts| && KindOf(ts[i]) == KS32
    ensures r.Some? ==> ts[i] == S32(r.value)
  {
    if i < |ts| && ts[i].S32? then Some(ts[i].s) else None
  }

  function StrAt(ts: seq<Token>, i: nat): (r: Option<string>)
    ensures r.Some? <==> i < |ts| && KindOf(ts[i]) == KStr
    ensures r.Some? ==> ts[i] == Str(r.value)
  {
    if i < |ts| && ts[i].Str? then Some(ts[i].text) else None
  }

  /** An output string stream: every write appends one token. */
  class OutStream {
    var written: seq<Token>

    constructor ()
      ensures written == []
    {
      written := [];
    }

    method WriteF1000(v: int)
      modifies this
      ensures written == old(written) + [F1000(v)]
    {
      written := written + [F1000(v)];
    }

    method WriteU32(v: u32)
      modifies this
      ensures written == old(written) + [U32(v)]
    {
      written := written + [U32(v)];
    }

    method WriteS32(v: s32)
      modifies this
      ensures written == old(written) + [S32(v)]
    {
      written := written + [S32(v)];
    }

    method WriteString(s: string)
      modifies this
      ensures written == old(written) + [Str(s)]
    {
      written := written + [Str(s)];
    }
  }

  /** An input string stream over the tokens not yet consumed. A successful
      read consumes exactly one token of the requested kind; a read that
      finds no such token fails and consumes nothing. */
  class InStream {
    var rest: seq<Token>

    constructor (data: seq<Token>)
      ensures rest == data
    {
      rest := data;
    }

    method ReadF1000() returns (r: Option<int>)
      modifies this
      ensures r == F1000At(old(rest), 0)
      ensures rest == if r.Some? then old(rest)[1..] else old(rest)
    {
      r := F1000At(rest, 0);
      if r.Some? {
        rest := rest[1..];
      }
    }

    method ReadU32() returns (r: Option<u32>)
      modifies this
      ensures r == U32At(old(rest), 0)
      ensures rest == if r.Some? then old(rest)[1..] else old(rest)
    {
      r := U32At(rest, 0);
      if r.Some? {
        rest := rest[1..];
      }
    }

    method ReadS32() returns (r: Option<s32>)
      modifies this
      ensures r == S32At(old(rest), 0)
      ensures rest == if r.Some? then old(rest)[1..] else old(rest)
    {
      r := S32At(rest, 0);
      if r.Some? {
        rest := rest[1..];
      }
    }

    method ReadString() returns (r: Option<string>)
      modifies this
      ensures r == StrAt(old(rest), 0)
      ensures rest == if r.Some? then old(rest)[1..] else old(rest)
    {
      r := StrAt(rest, 0);
      if r.Some? {
        rest := rest[1..];
      }
    }
  }
}
