/** Bytes, byte ranges and the sources they come from. */
module ByteText {

  newtype byte = b: int | 0 <= b < 256

  const TAB: byte := 9
  const LF: byte := 10
  const FF: byte := 12
  const CR: byte := 13
  const SPACE: byte := 32

  type Bytes = seq<byte>

  predicate IsWhitespace(b: byte) {
    b == SPACE || b == TAB || b == LF || b == FF || b == CR
  }

  predicate IsBreak(b: byte) {
    b == CR || b == LF
  }

  /** A half-open byte range. */
  datatype Range = Range(start: nat, end: nat) {
    predicate Within(n: nat) {
      start <= end <= n
    }

    function Length(): int {
      end - start
    }
  }

  function Slice(s: Bytes, r: Range): Bytes
    requires r.Within(|s|)
  {
    s[r.start..r.end]
  }

  /** Identity of one source text. */
  type SourceId = string

  /**
    Identity of one expansion of a source: the include occurrences that led to it, none for the
    root; or an empty name.
    */
  datatype ExpansionId = NoExpansion | Expansion(path: seq<nat>) {
    function Child(occurrence: nat): ExpansionId {
      Expansion((if NoExpansion? then [] else path) + [occurrence])
    }
  }

  const ROOT_EXPANSION := Expansion([])

  datatype Snapshot = Snapshot(id: SourceId, bytes: Bytes)

  /** Whitespace of the same length with the same line breaks. */
  function Mask(s: Bytes): (masked: Bytes)
    ensures |masked| == |s|
    ensures forall i :: 0 <= i < |s| ==> if s[i] == CR || s[i] == LF then masked[i] == s[i] else masked[i] == SPACE
  {
    seq(|s|, i requires 0 <= i < |s| => if IsBreak(s[i]) then s[i] else SPACE)
  }
}
