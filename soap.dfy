/** The SOAP 1.1 Body decoder of the promosoap package: the Body and Fault
    records, the stream of XML tokens the decoder walks, the pure
    specification of that walk, and the imperative decoder proved against it.

    The XML library itself (tokenizer, reflection-driven element decoding) is
    not modelled: the token stream is a sequence of reads, and decoding one
    element's subtree is a function supplied by the caller. */
module Soap {

  // ---------------------------------------------------------------------
  // Namespaces the decoder compares against or installs
  // ---------------------------------------------------------------------

  const NamespaceSoap11 := "http://schemas.xmlsoap.org/soap/envelope/"
  const NamespaceSoap12 := "http://www.w3.org/2003/05/soap-envelope"
  const NamespacePDS := "http://www.promostandards.org/WSDL/ProductDataService/1.0.0/"
  const NamespaceSharedObj := "http://www.promostandards.org/WSDL/ProductDataService/1.0.0/SharedObjects/"

  /** The entity map the decoder installs before walking the Body. */
  const EntityMap: map<string, string> :=
    map["soap" := NamespaceSoap11, "ns" := NamespaceSharedObj, "tns" := NamespacePDS]

  // ---------------------------------------------------------------------
  // Data model
  // ---------------------------------------------------------------------

  datatype Option<T> = None | Some(value: T)

  /** A qualified XML name: namespace URI and local part. */
  datatype Name = Name(space: string, local: string)

  /** One token of the stream. A start-element carries the tokens of its own
      subtree, which the element decoder consumes as a whole; the element's
      attributes are not represented; character data,
      comments, processing instructions and directives are all `Other`. `Nil`
      is a token read without error that is absent. */
  datatype Token =
    | Start(name: Name, subtree: seq<Token>)
    | End
    | Nil
    | Other

  /** An error produced by the XML library, passed through unchanged.
      `EndOfInput` stands for whatever error the library reports when the
      stream is exhausted before the walk ends. */
  datatype XmlError = EndOfInput | LibraryError(message: string)

  /** The outcome of one call for the next token. */
  datatype Read = Got(token: Token) | Failed(error: XmlError)

  /** A SOAP 1.1 Fault: faultcode, faultstring, faultactor and detail. */
  datatype Fault = Fault(faultCode: string, faultString: string, faultActor: string, detail: string)
  {
    /** A Fault used as an error reads as its faultstring. */
    function Error(): (text: string)
      ensures this == Fault(faultCode, text, faultActor, detail)
    {
      faultString
    }
  }

  /** The record a Fault element is decoded into: all fields empty. */
  const EmptyFault := Fault("", "", "", "")

  /** The errors the Body decoder returns. */
  datatype BodyError =
    | InvalidDestination
    | MultipleBodyElements
    | Propagated(cause: XmlError)

  const InvalidDestinationText := "Content must be a pointer to a struct"
  const MultipleElementsText :=
    "Found multiple elements inside SOAP body; not wrapped-document/literal WS-I compliant"

  /** The text of each error the decoder raises itself; a propagated error
      keeps the library's own text, which is not modelled. Each text names
      exactly one error. */
  function Message(e: BodyError): (text: string)
    requires !e.Propagated?
    ensures text == InvalidDestinationText <==> e == InvalidDestination
    ensures text == MultipleElementsText <==> e == MultipleBodyElements
  {
    assert |InvalidDestinationText| < |MultipleElementsText|;
    match e
    case InvalidDestination => InvalidDestinationText
    case MultipleBodyElements => MultipleElementsText
  }

  /** What decoding one element's subtree leaves behind: the value written
      into the target (complete, or partial when `failure` is set). */
  datatype Decoded<T> = Decoded(value: T, failure: Option<XmlError>)

  /** Decoding one element: its name, its subtree and the target's current
      value give the target's new value, or a failure. */
  type ElementDecoder<!T> = (Name, seq<Token>, T) -> Decoded<T>

  /** Only a start-element named Fault in the SOAP 1.1 envelope namespace is
      routed to the Fault record. */
  predicate IsSoapFault(n: Name)
  {
    n.space == NamespaceSoap11 && n.local == "Fault"
  }

  // ---------------------------------------------------------------------
  // Specification of the walk
  // ---------------------------------------------------------------------

  /** The part of a Body the decoder writes, as values: the Fault record, the
      value held by the destination the Body refers to (None when it refers
      to none), and the local name of the element decoded as payload. */
  datatype BodyView<P> = BodyView(fault: Option<Fault>, content: Option<P>, contentType: string)

  /** Result of decoding a Body: its final view, the error returned (None on
      success) and how many reads were taken from the stream. */
  datatype Outcome<P> = Outcome(body: BodyView<P>, result: Option<BodyError>, used: nat)

  function Later<P>(o: Outcome<P>, k: nat): Outcome<P>
  {
    o.(used := o.used + k)
  }

  predicate Stops(r: Read)
  {
    r == Got(End) || r == Got(Nil)
  }

  /** The Body after one child element has been decoded, and the failure
      of that decoding if any. */
  datatype Step<P> = Step(body: BodyView<P>, failure: Option<XmlError>)

  /** Routes the first child element: a SOAP 1.1 Fault is decoded into a
      fresh Fault record and Content is cleared; any other element names the
      content type and is decoded into the destination's current value. */
  function Route<P>(b: BodyView<P>, name: Name, subtree: seq<Token>,
                    intoFault: ElementDecoder<Fault>, intoContent: ElementDecoder<P>): (s: Step<P>)
    requires b.content.Some?
    ensures IsSoapFault(name) ==>
              s.body.fault.Some? && s.body.content.None? && s.body.contentType == b.contentType
    ensures !IsSoapFault(name) ==>
              s.body.fault == b.fault && s.body.content.Some? && s.body.contentType == name.local
  {
    if IsSoapFault(name) then
      var d := intoFault(name, subtree, EmptyFault);
      Step(b.(fault := Some(d.value), content := None), d.failure)
    else
      var d := intoContent(name, subtree, b.content.value);
      Step(b.(contentType := name.local, content := Some(d.value)), d.failure)
  }

  /** The token walk over the Body's children, with `consumed` telling
      whether a child element has already been decoded. */
  function Walk<P>(rest: seq<Read>, consumed: bool, b: BodyView<P>,
                   intoFault: ElementDecoder<Fault>, intoContent: ElementDecoder<P>): (o: Outcome<P>)
    requires consumed || b.content.Some?
    ensures o.used <= |rest|
    ensures o.result != Some(InvalidDestination)
    // success ends on the first end-element (or absent token) that is read
    ensures o.result.None? ==> 0 < o.used && Stops(rest[o.used - 1])
    // a second child element is the last token read
    ensures o.result == Some(MultipleBodyElements) ==> 0 < o.used && rest[o.used - 1].Got? && rest[o.used - 1].token.Start?
    // once a child is consumed, nothing in the Body changes any more
    ensures consumed ==> o.body == b
    // a new Fault clears Content and leaves the content type alone
    ensures o.body.fault != b.fault ==> o.body.content.None? && o.body.contentType == b.contentType
    // Content is only ever cleared together with setting a Fault
    ensures b.content.Some? && o.body.content.None? ==> o.body.fault.Some?
    decreases |rest|
  {
    if |rest| == 0 then
      Outcome(b, Some(Propagated(EndOfInput)), 0)
    else
      match rest[0]
      case Failed(e) => Outcome(b, Some(Propagated(e)), 1)
      case Got(Nil) => Outcome(b, None, 1)
      case Got(End) => Outcome(b, None, 1)
      case Got(Other) => Later(Walk(rest[1..], consumed, b, intoFault, intoContent), 1)
      case Got(Start(name, subtree)) =>
        if consumed then
          Outcome(b, Some(MultipleBodyElements), 1)
        else
          var s := Route(b, name, subtree, intoFault, intoContent);
          if s.failure.Some? then Outcome(s.body, Some(Propagated(s.failure.value)), 1)
          else Later(Walk(rest[1..], true, s.body, intoFault, intoContent), 1)
  }

  /** The whole decoder: refuse a Body without a destination, then walk. */
  function Unmarshal<P>(b: BodyView<P>, input: seq<Read>,
                        intoFault: ElementDecoder<Fault>, intoContent: ElementDecoder<P>): (o: Outcome<P>)
    ensures o.result == Some(InvalidDestination) <==> b.content.None?
    ensures b.content.None? ==> o.body == b && o.used == 0
    ensures o.used <= |input|
  {
    if b.content.None? then Outcome(b, Some(InvalidDestination), 0)
    else Walk(input, false, b, intoFault, intoContent)
  }

  // ---------------------------------------------------------------------
  // The decoder's state and the Body record
  // ---------------------------------------------------------------------

  /** The XML decoder as the Body decoder sees it: a stream of reads with a
      cursor, and the two settings the Body decoder assigns. */
  class Decoder {
    var input: seq<Read>
    var pos: nat
    var defaultSpace: string
    var entity: map<string, string>

    ghost predicate Valid()
      reads this
    {
      pos <= |input|
    }

    constructor (input: seq<Read>)
      ensures Valid()
      ensures this.input == input && pos == 0
      ensures defaultSpace == "" && entity == map[]
    {
      this.input := input;
      pos := 0;
      defaultSpace := "";
      entity := map[];
    }

    /** The next read of the stream; an exhausted stream reports end of input
        and does not advance. */
    method Token() returns (r: Read)
      requires Valid()
      modifies this`pos
      ensures Valid()
      ensures old(pos) < |input| ==> r == input[old(pos)] && pos == old(pos) + 1
      ensures old(pos) == |input| ==> r == Failed(EndOfInput) && pos == old(pos)
    {
      if pos < |input| {
        r := input[pos];
        pos := pos + 1;
      } else {
        r := Failed(EndOfInput);
      }
    }
  }

  /** A caller-owned destination that a payload element is decoded into. */
  class Destination<P> {
    var value: P

    constructor (initial: P)
      ensures value == initial
    {
      value := initial;
    }
  }

  class Body<P> {
    var fault: Option<Fault>
    var content: Option<Destination<P>>
    var contentType: string

    constructor (content: Option<Destination<P>>)
      ensures fault == None && this.content == content && contentType == ""
    {
      fault := None;
      this.content := content;
      contentType := "";
    }

    /** The destination object the Body currently refers to, if any. */
    ghost function ContentObjects(): set<object>
      reads this
    {
      if content.Some? then {content.value} else {}
    }

    ghost function View(): BodyView<P>
      reads this, ContentObjects()
    {
      BodyView(fault, if content.Some? then Some(content.value.value) else None, contentType)
    }

    /** Decodes the Body's one child element, as Route describes. */
    method DecodeChild(name: Name, subtree: seq<Token>, intoFault: ElementDecoder<Fault>, intoContent: ElementDecoder<P>)
      returns (failure: Option<XmlError>)
      requires content.Some?
      modifies this, ContentObjects()
      ensures Step(View(), failure) == Route(old(View()), name, subtree, intoFault, intoContent)
      ensures content.Some? ==> content == old(content)
      // clearing Content drops the reference and leaves the caller's destination alone
      ensures content.None? ==> old(content).value.value == old(content.value.value)
    {
      if IsSoapFault(name) {
        fault := Some(EmptyFault);
        content := None;
        var r := intoFault(name, subtree, EmptyFault);
        fault := Some(r.value);
        failure := r.failure;
      } else {
        contentType := name.local;
        var dest := content.value;
        var r := intoContent(name, subtree, dest.value);
        dest.value := r.value;
        failure := r.failure;
      }
    }

    /** Decodes the Body's children from `d`, writing the Fault record or the
        caller's destination. */
    method UnmarshalXML(d: Decoder, intoFault: ElementDecoder<Fault>, intoContent: ElementDecoder<P>)
      returns (err: Option<BodyError>)
      requires d.Valid()
      modifies this, d, ContentObjects()
      ensures d.Valid() && d.input == old(d.input)
      ensures var o := Unmarshal(old(View()), old(d.input[d.pos..]), intoFault, intoContent);
              err == o.result && View() == o.body && d.pos == old(d.pos) + o.used
      // the destination is decoded into in place, never replaced
      ensures content.Some? ==> content == old(content)
      // a Fault child drops the reference and leaves the caller's destination alone
      ensures old(content).Some? && content.None? ==> old(content).value.value == old(content.value.value)
      ensures old(content).None? ==> d.defaultSpace == old(d.defaultSpace) && d.entity == old(d.entity)
      ensures old(content).Some? ==> d.defaultSpace == NamespacePDS && d.entity == EntityMap
    {
      if content.None? {
        return Some(InvalidDestination);
      }

      d.defaultSpace := NamespacePDS;
      d.entity := EntityMap;

      ghost var start := View();
      ghost var startPos := d.pos;
      var consumed := false;
      while true
        invariant d.Valid() && d.input == old(d.input) && startPos <= d.pos
        invariant d.defaultSpace == NamespacePDS && d.entity == EntityMap
        invariant content.Some? ==> content == old(content)
        invariant !consumed ==> content.Some? && content.value.value == old(content.value.value)
        invariant content.None? ==> old(content).value.value == old(content.value.value)
        invariant Walk(d.input[startPos..], false, start, intoFault, intoContent)
               == Later(Walk(d.input[d.pos..], consumed, View(), intoFault, intoContent), d.pos - startPos)
        decreases |d.input| - d.pos
      {
        ghost var here := d.pos;
        var t := d.Token();
        assert here < |d.input| ==> d.input[here..][1..] == d.input[d.pos..];
        if t.Failed? {
          return Some(Propagated(t.error));
        }
        match t.token
        case Nil =>
          break;
        case End =>
          break;
        case Other =>
        case Start(name, subtree) =>
          if consumed {
            return Some(MultipleBodyElements);
          }
          var failure := DecodeChild(name, subtree, intoFault, intoContent);
          if failure.Some? {
            return Some(Propagated(failure.value));
          }
          consumed := true;
      }
      return None;
    }
  }
}
