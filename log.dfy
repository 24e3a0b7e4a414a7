/** The log entries `server_process` writes: `"<src, dst, time, Request|Response, id>"`. */
module Log {
  import opened Text

  datatype Kind = Request | Response

  datatype Entry = Entry(src: string, dst: string, time: int, kind: Kind, id: string)

  function KindName(k: Kind): string {
    match k
    case Request => "Request"
    case Response => "Response"
  }

  /** The text of an entry, as the f-strings of `server_process` format it. */
  function Format(e: Entry): string {
    "<" + e.src + ", " + e.dst + ", " + IntToString(e.time) + ", " + KindName(e.kind) + ", " + e.id + ">"
  }

  /** The `path` list of a transaction: its entries, formatted. */
  function Render(log: seq<Entry>): seq<string> {
    seq(|log|, i requires 0 <= i < |log| => Format(log[i]))
  }

  /** Reading the source field back: `line.split(", ")[0][1:]` recovers the source of the entry
      the line was formatted from, as long as that source holds no comma. */
  lemma SourceRoundTrip(e: Entry)
    requires CommaFree(e.src)
    ensures DropFirst(BeforeCommaSpace(Format(e))) == e.src
  {
    var rest := e.dst + ", " + IntToString(e.time) + ", " + KindName(e.kind) + ", " + e.id + ">";
    assert Format(e) == ("<" + e.src) + ", " + rest;
    BeforeCommaSpaceHead("<" + e.src, rest);
    assert ("<" + e.src)[1..] == e.src;
  }

  /** The previous hop of `server_process`: the source field of the last line of the path, or
      "user" when the path is empty (the `except` branch). */
  function PrevServer(log: seq<Entry>): (p: string)
    ensures log == [] ==> p == "user"
    ensures log != [] && CommaFree(log[|log| - 1].src) ==> p == log[|log| - 1].src
  {
    if log == [] then "user"
    else
      var last := log[|log| - 1];
      var field := DropFirst(BeforeCommaSpace(Format(last)));
      if CommaFree(last.src) then SourceRoundTrip(last); field else field
  }
}
