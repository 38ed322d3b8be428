// The buffer that holds back a managed response: all of it or nothing reaches the
// client, once.

module ResponseBuffer {
  import opened Options
  import opened Text
  import opened Decimal
  import opened OutcomeStore
  import opened ContentTypes

  datatype Error = Overflow | Flushed | AlreadyWritten | WriteFailed

  datatype Result<T> = Ok(value: T) | Err(error: Error)

  const CONTENT_TYPE := "Content-Type"
  const CONTENT_LENGTH := "Content-Length"
  const REVISION := "X-New-Api-Context-Revision"

  function Get(header: map<string, string>, name: string): string {
    if name in header then header[name] else ""
  }

  // The only headers a client sees.
  function ClientHeader(header: map<string, string>, length: nat): map<string, string> {
    var base := map[CONTENT_TYPE := SafeContentType(Get(header, CONTENT_TYPE)), CONTENT_LENGTH := Print(length)];
    var revision := TrimSpace(Get(header, REVISION));
    if revision == "" then base else base[REVISION := revision]
  }

  // A client sees one of two content types, the length in decimal, and the revision without white space around
  // it if there is one; nothing else of the header.
  lemma ClientHeaderMeans(header: map<string, string>, length: nat)
    ensures var seen := ClientHeader(header, length);
            && {"Content-Type", "Content-Length"} <= seen.Keys <= {"Content-Type", "Content-Length", "X-New-Api-Context-Revision"}
            && (seen["Content-Type"] == if "Content-Type" in header && NamesType(header["Content-Type"], "application/problem+json")
                                        then "application/problem+json" else "application/json")
            && seen["Content-Length"] == Digits(length)
            && ("X-New-Api-Context-Revision" in seen <==>
                  "X-New-Api-Context-Revision" in header && !IsTrimOf("", header["X-New-Api-Context-Revision"]))
            && ("X-New-Api-Context-Revision" in seen ==>
                  IsTrimOf(seen["X-New-Api-Context-Revision"], header["X-New-Api-Context-Revision"]))
  {
    hide SafeContentType, TrimSpace, NamesType, IsTrimOf, Digits;
    ContentTypeIff(Get(header, CONTENT_TYPE));
    TypeIsNoLonger("", "application/problem+json");
    TrimSpaceIff(Get(header, REVISION), TrimSpace(Get(header, REVISION)));
    TrimSpaceIff(Get(header, REVISION), "");
    TrimmedIsFixed("");
  }

  class ClientWriter {
    var header: map<string, string>
    var status: Option<int>
    var body: string

    constructor (header: map<string, string>)
      ensures this.header == header && status == None && body == ""
    {
      this.header := header;
      status, body := None, "";
    }

    predicate Untouched()
      reads this
    {
      status == None && body == ""
    }
  }

  function Concat(parts: seq<string>): string {
    if parts == [] then "" else Concat(parts[..|parts| - 1]) + parts[|parts| - 1]
  }

  // What a sequence of writes leaves: the body so far and whether one of them did not fit.
  datatype Content = Content(body: string, overflowed: bool)

  function Written(content: Content, data: string, maximum: nat): Content {
    if content.overflowed || |data| > maximum - |content.body| then content.(overflowed := true)
    else content.(body := content.body + data)
  }

  function WrittenAll(parts: seq<string>, maximum: nat): Content {
    if parts == [] then Content("", false) else Written(WrittenAll(parts[..|parts| - 1], maximum), parts[|parts| - 1], maximum)
  }

  // All or nothing: the buffer overflows exactly when the whole does not fit, however it is cut into
  // writes, and otherwise holds the whole.
  lemma {:induction false} AllOrNothing(parts: seq<string>, maximum: nat)
    ensures var content := WrittenAll(parts, maximum);
            && (content.overflowed <==> |Concat(parts)| > maximum)
            && (!content.overflowed ==> content.body == Concat(parts))
  {
    if parts != [] {
      AllOrNothing(parts[..|parts| - 1], maximum);
    }
  }

  class ManagedResponseBuffer {
    const parent: ClientWriter
    const maximumSize: nat
    var header: map<string, string>
    var body: string
    var status: int
    var size: int
    var overflowed: bool
    var flushed: bool
    var committed: bool
    ghost var writes: seq<string>

    ghost predicate Valid()
      reads this, parent
    {
      && Content(body, overflowed) == WrittenAll(writes, maximumSize)
      && (size < 0 ==> writes == [] && body == "") && -1 <= size && (size >= 0 ==> size == |body|)
      && |body| <= maximumSize
      && (!committed ==> parent.Untouched())
    }

    constructor (parent: ClientWriter, maximumSize: nat)
      requires maximumSize > 0 && parent.Untouched()
      ensures Valid() && this.parent == parent && this.maximumSize == maximumSize
      ensures writes == [] && !flushed && !committed && header == parent.header && status == 200 && size == -1
    {
      this.parent := parent;
      this.maximumSize := maximumSize;
      header := parent.header;
      body, status, size, overflowed, flushed, committed := "", 200, -1, false, false, false;
      writes := [];
    }

    // The status is fixed by the first write.
    method WriteHeader(statusCode: int)
      requires Valid()
      modifies this`status
      ensures Valid() && status == if statusCode <= 0 || size >= 0 then old(status) else statusCode
    {
      if statusCode <= 0 || size >= 0 { return; }
      status := statusCode;
    }

    method WriteHeaderNow()
      requires Valid()
      modifies this`size
      ensures Valid() && size == if old(size) < 0 then 0 else old(size)
    {
      if size < 0 {
        size := 0;
      }
    }

    method Write(data: string) returns (r: Result<nat>)
      requires Valid()
      modifies this`body, this`size, this`overflowed, this`writes
      ensures Valid() && writes == old(writes) + [data]
      ensures r == if overflowed then Err(Overflow) else Ok(|data|)
      ensures Content(body, overflowed) == Written(Content(old(body), old(overflowed)), data, maximumSize)
    {
      assert (writes + [data])[..|writes|] == writes;
      if overflowed {
        writes := writes + [data];
        return Err(Overflow);
      }
      WriteHeaderNow();
      writes := writes + [data];
      if |data| > maximumSize - |body| {
        overflowed := true;
        return Err(Overflow);
      }
      body := body + data;
      size := size + |data|;
      r := Ok(|data|);
    }

    method Flush()
      requires Valid()
      modifies this`size, this`flushed
      ensures Valid() && flushed
    {
      WriteHeaderNow();
      flushed := true;
    }

    // The body is available exactly when everything written fits and nothing was flushed.
    method Body() returns (r: Result<string>)
      requires Valid()
      ensures r == if |Concat(writes)| > maximumSize then Err(Overflow)
                   else if flushed then Err(Flushed)
                   else Ok(Concat(writes))
    {
      AllOrNothing(writes, maximumSize);
      if overflowed { return Err(Overflow); }
      if flushed { return Err(Flushed); }
      r := Ok(body);
    }

    // The client gets the whole response in one go and at most once: nothing at all after an error of the
    // buffer, and a part of it, never to be repeated, if the connection takes only `accepted` characters.
    method FlushToClient(accepted: nat) returns (r: Result<()>)
      requires Valid()
      modifies this`committed, parent
      ensures Valid()
      ensures r == if old(committed) then Err(AlreadyWritten)
                   else if |Concat(writes)| > maximumSize then Err(Overflow)
                   else if flushed then Err(Flushed)
                   else if accepted < |Concat(writes)| then Err(WriteFailed)
                   else Ok(())
      ensures r.Err? && r.error != WriteFailed ==>
                committed == old(committed) && parent.status == old(parent.status)
                && parent.body == old(parent.body) && parent.header == old(parent.header)
      ensures r.Ok? || r.error == WriteFailed ==>
                && committed && parent.status == Some(status)
                && parent.body == (if r.Ok? then Concat(writes) else Concat(writes)[..accepted])
                && parent.header == ClientHeader(header, |Concat(writes)|)
    {
      hide SafeContentType, Print, TrimSpace, Get, Concat, WrittenAll;
      if committed { return Err(AlreadyWritten); }
      var content := Body();
      if content.Err? { return Err(content.error); }
      AllOrNothing(writes, maximumSize);
      committed := true;
      var destination: map<string, string> := map[];
      destination := destination[CONTENT_TYPE := SafeContentType(Get(header, CONTENT_TYPE))];
      destination := destination[CONTENT_LENGTH := Print(|body|)];
      var revision := TrimSpace(Get(header, REVISION));
      if revision != "" {
        destination := destination[REVISION := revision];
      }
      parent.header := destination;
      parent.status := Some(status);
      if |body| == 0 { return Ok(()); }
      if accepted < |body| {
        parent.body := parent.body + body[..accepted];
        return Err(WriteFailed);
      }
      parent.body := parent.body + body;
      r := Ok(());
    }
  }
}
