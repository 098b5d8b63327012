/** The Lua function objects the profiler is handed. They come from the
    embedded Lua interpreter and are not part of this model; only the fields
    the profiler reads are kept, with Java's null written as None. */
module Lua {
  import opened Strings

  /** The parts of a compiled Lua function prototype the profiler reads: the
      chunk name (`filename`), the source file (`file`) and the line table. */
  datatype Prototype = Prototype(filename: Option<string>, file: Option<string>, lines: Option<seq<Int32>>)

  /** The object passed to pcall: null, a Lua closure (whose prototype may be
      null) or some other Java object. `hash` is its hashCode(), `text` its
      toString() and `className` its class's simple name. */
  datatype FuncObj =
    | Null
    | Closure(hash: Int32, proto: Option<Prototype>, text: string)
    | Other(hash: Int32, className: string, text: string)

  /** The file a prototype names: `filename`, else `file`, else "unknown". */
  function SourceName(p: Prototype): string {
    if p.filename.Some? then p.filename.value
    else if p.file.Some? then p.file.value
    else "unknown"
  }

  /** The first entry of the line table, or 0 when there is none. */
  function FirstLine(p: Prototype): Int32 {
    if p.lines.Some? && |p.lines.value| > 0 then p.lines.value[0] else 0
  }

  /** The prototype of a closure that has one. */
  predicate HasPrototype(f: FuncObj) {
    f.Closure? && f.proto.Some?
  }
}
