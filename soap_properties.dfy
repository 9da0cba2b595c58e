/** Properties of the SOAP Body decoder, stated over the walk that
    Body.UnmarshalXML is proved to perform. Throughout, `pre` and `mid` are
    runs of tokens that are neither start- nor end-elements (character data,
    comments and the like), which the decoder skips. */
module SoapProperties {
  import opened Soap

  /** Every read is a token the walk skips. */
  predicate Skipped(s: seq<Read>)
  {
    forall i :: 0 <= i < |s| ==> s[i] == Got(Other)
  }

  /** Skipped tokens change nothing: the walk over them and then `rest` is
      the walk over `rest`, having read them too. */
  lemma {:induction false} SkipsOtherTokens<P>(pre: seq<Read>, rest: seq<Read>, consumed: bool, b: BodyView<P>,
                                               intoFault: ElementDecoder<Fault>, intoContent: ElementDecoder<P>)
    requires Skipped(pre)
    requires consumed || b.content.Some?
    ensures Walk(pre + rest, consumed, b, intoFault, intoContent)
         == Later(Walk(rest, consumed, b, intoFault, intoContent), |pre|)
  {
    if pre == [] {
      assert pre + rest == rest;
    } else {
      assert (pre + rest)[0] == Got(Other);
      assert (pre + rest)[1..] == pre[1..] + rest;
      SkipsOtherTokens(pre[1..], rest, consumed, b, intoFault, intoContent);
    }
  }

  /** A failed read ends the walk with that very error, leaving the Body as
      it was; nothing after it is read. */
  lemma ReadFailureStops<P>(pre: seq<Read>, e: XmlError, rest: seq<Read>, consumed: bool, b: BodyView<P>,
                            intoFault: ElementDecoder<Fault>, intoContent: ElementDecoder<P>)
    requires Skipped(pre)
    requires consumed || b.content.Some?
    ensures Walk(pre + [Failed(e)] + rest, consumed, b, intoFault, intoContent)
         == Outcome(b, Some(Propagated(e)), |pre| + 1)
  {
    assert pre + [Failed(e)] + rest == pre + ([Failed(e)] + rest);
    SkipsOtherTokens(pre, [Failed(e)] + rest, consumed, b, intoFault, intoContent);
  }

  /** The first end-element, or an absent token, ends the walk with success
      and leaves the Body as it was; nothing after it is read. With no child
      decoded yet this is the empty Body: neither Fault nor Content changes. */
  lemma EndElementStops<P>(pre: seq<Read>, t: Read, rest: seq<Read>, consumed: bool, b: BodyView<P>,
                           intoFault: ElementDecoder<Fault>, intoContent: ElementDecoder<P>)
    requires Skipped(pre) && Stops(t)
    requires consumed || b.content.Some?
    ensures Walk(pre + [t] + rest, consumed, b, intoFault, intoContent) == Outcome(b, None, |pre| + 1)
  {
    assert pre + [t] + rest == pre + ([t] + rest);
    SkipsOtherTokens(pre, [t] + rest, consumed, b, intoFault, intoContent);
  }

  /** Once a child element has been consumed, the next start-element is
      refused as a multiple-element Body, whatever its name. */
  lemma SecondElementRejected<P>(pre: seq<Read>, name: Name, subtree: seq<Token>, rest: seq<Read>, b: BodyView<P>,
                                 intoFault: ElementDecoder<Fault>, intoContent: ElementDecoder<P>)
    requires Skipped(pre)
    ensures Walk(pre + [Got(Start(name, subtree))] + rest, true, b, intoFault, intoContent)
         == Outcome(b, Some(MultipleBodyElements), |pre| + 1)
  {
    assert pre + [Got(Start(name, subtree))] + rest == pre + ([Got(Start(name, subtree))] + rest);
    SkipsOtherTokens(pre, [Got(Start(name, subtree))] + rest, true, b, intoFault, intoContent);
  }

  /** A Fault element in the SOAP 1.1 envelope namespace sets a fresh Fault
      record (as far as its decoding got), clears Content and keeps the
      content type; a failed decoding is returned at once. */
  lemma FaultChild<P>(pre: seq<Read>, name: Name, subtree: seq<Token>, rest: seq<Read>, b: BodyView<P>,
                      intoFault: ElementDecoder<Fault>, intoContent: ElementDecoder<P>)
    requires Skipped(pre) && IsSoapFault(name)
    requires b.content.Some?
    ensures var d := intoFault(name, subtree, EmptyFault);
            var o := Unmarshal(b, pre + [Got(Start(name, subtree))] + rest, intoFault, intoContent);
            && o.body == BodyView(Some(d.value), None, b.contentType)
            && (d.failure.Some? ==> o.result == Some(Propagated(d.failure.value)) && o.used == |pre| + 1)
            && (d.failure.None? ==> o == Later(Walk(rest, true, o.body, intoFault, intoContent), |pre| + 1))
  {
    var t := Got(Start(name, subtree));
    assert pre + [t] + rest == pre + ([t] + rest);
    assert ([t] + rest)[1..] == rest;
    SkipsOtherTokens(pre, [t] + rest, false, b, intoFault, intoContent);
  }

  /** Any other start-element is the payload: its local name becomes the
      content type, it is decoded into the destination's current value, and
      the Fault record is untouched; a failed decoding is returned at once. */
  lemma PayloadChild<P>(pre: seq<Read>, name: Name, subtree: seq<Token>, rest: seq<Read>, b: BodyView<P>,
                        intoFault: ElementDecoder<Fault>, intoContent: ElementDecoder<P>)
    requires Skipped(pre) && !IsSoapFault(name)
    requires b.content.Some?
    ensures var d := intoContent(name, subtree, b.content.value);
            var o := Unmarshal(b, pre + [Got(Start(name, subtree))] + rest, intoFault, intoContent);
            && o.body == BodyView(b.fault, Some(d.value), name.local)
            && (d.failure.Some? ==> o.result == Some(Propagated(d.failure.value)) && o.used == |pre| + 1)
            && (d.failure.None? ==> o == Later(Walk(rest, true, o.body, intoFault, intoContent), |pre| + 1))
  {
    var t := Got(Start(name, subtree));
    assert pre + [t] + rest == pre + ([t] + rest);
    assert ([t] + rest)[1..] == rest;
    SkipsOtherTokens(pre, [t] + rest, false, b, intoFault, intoContent);
  }

  /** A Fault element outside the SOAP 1.1 envelope namespace (SOAP 1.2, or
      no namespace) is decoded as payload: the Fault record is untouched, the
      content type becomes "Fault" and the destination receives it. */
  lemma OtherFaultsArePayload<P>(pre: seq<Read>, name: Name, subtree: seq<Token>, rest: seq<Read>, b: BodyView<P>,
                                 intoFault: ElementDecoder<Fault>, intoContent: ElementDecoder<P>)
    requires Skipped(pre) && name.local == "Fault" && name.space != NamespaceSoap11
    requires b.content.Some?
    ensures var d := intoContent(name, subtree, b.content.value);
            var o := Unmarshal(b, pre + [Got(Start(name, subtree))] + rest, intoFault, intoContent);
            && o.body == BodyView(b.fault, Some(d.value), "Fault")
            && (d.failure.Some? ==> o.result == Some(Propagated(d.failure.value)))
  {
    PayloadChild(pre, name, subtree, rest, b, intoFault, intoContent);
  }

  /** In particular a SOAP 1.2 Fault is payload, not a Fault record. */
  lemma Soap12FaultIsPayload<P>(pre: seq<Read>, subtree: seq<Token>, rest: seq<Read>, b: BodyView<P>,
                                intoFault: ElementDecoder<Fault>, intoContent: ElementDecoder<P>)
    requires Skipped(pre)
    requires b.content.Some?
    ensures var name := Name(NamespaceSoap12, "Fault");
            var d := intoContent(name, subtree, b.content.value);
            var o := Unmarshal(b, pre + [Got(Start(name, subtree))] + rest, intoFault, intoContent);
            && o.body == BodyView(b.fault, Some(d.value), "Fault")
            && (d.failure.Some? ==> o.result == Some(Propagated(d.failure.value)))
  {
    OtherFaultsArePayload(pre, Name(NamespaceSoap12, "Fault"), subtree, rest, b, intoFault, intoContent);
  }

  /** A Body holding exactly one SOAP 1.1 Fault decodes with success into
      the Fault record alone, reading up to its own end-element. */
  lemma SingleFaultBody<P>(pre: seq<Read>, name: Name, subtree: seq<Token>, mid: seq<Read>, t: Read,
                           rest: seq<Read>, b: BodyView<P>,
                           intoFault: ElementDecoder<Fault>, intoContent: ElementDecoder<P>)
    requires Skipped(pre) && Skipped(mid) && Stops(t) && IsSoapFault(name)
    requires b.content.Some?
    requires intoFault(name, subtree, EmptyFault).failure.None?
    ensures var o := Unmarshal(b, pre + [Got(Start(name, subtree))] + mid + [t] + rest, intoFault, intoContent);
            o == Outcome(BodyView(Some(intoFault(name, subtree, EmptyFault).value), None, b.contentType),
                         None, |pre| + |mid| + 2)
  {
    var s := Got(Start(name, subtree));
    assert pre + [s] + mid + [t] + rest == pre + [s] + (mid + [t] + rest);
    FaultChild(pre, name, subtree, mid + [t] + rest, b, intoFault, intoContent);
    var b' := BodyView(Some(intoFault(name, subtree, EmptyFault).value), None, b.contentType);
    EndElementStops(mid, t, rest, true, b', intoFault, intoContent);
  }

  /** A Body holding exactly one payload element decodes with success into
      the destination, names that element as the content type and leaves the
      Fault record alone. */
  lemma SinglePayloadBody<P>(pre: seq<Read>, name: Name, subtree: seq<Token>, mid: seq<Read>, t: Read,
                             rest: seq<Read>, b: BodyView<P>,
                             intoFault: ElementDecoder<Fault>, intoContent: ElementDecoder<P>)
    requires Skipped(pre) && Skipped(mid) && Stops(t) && !IsSoapFault(name)
    requires b.content.Some?
    requires intoContent(name, subtree, b.content.value).failure.None?
    ensures var o := Unmarshal(b, pre + [Got(Start(name, subtree))] + mid + [t] + rest, intoFault, intoContent);
            o == Outcome(BodyView(b.fault, Some(intoContent(name, subtree, b.content.value).value), name.local),
                         None, |pre| + |mid| + 2)
  {
    var s := Got(Start(name, subtree));
    assert pre + [s] + mid + [t] + rest == pre + [s] + (mid + [t] + rest);
    PayloadChild(pre, name, subtree, mid + [t] + rest, b, intoFault, intoContent);
    var b' := BodyView(b.fault, Some(intoContent(name, subtree, b.content.value).value), name.local);
    EndElementStops(mid, t, rest, true, b', intoFault, intoContent);
  }

  /** Two child elements are refused at the second one, whether the first
      was a Fault or a payload; the first one's writes remain. */
  lemma MultipleChildrenRejected<P>(pre: seq<Read>, first: Name, firstTree: seq<Token>, mid: seq<Read>,
                                    second: Name, secondTree: seq<Token>, rest: seq<Read>, b: BodyView<P>,
                                    intoFault: ElementDecoder<Fault>, intoContent: ElementDecoder<P>)
    requires Skipped(pre) && Skipped(mid)
    requires b.content.Some?
    requires Route(b, first, firstTree, intoFault, intoContent).failure.None?
    ensures var o := Unmarshal(b, pre + [Got(Start(first, firstTree))] + mid + [Got(Start(second, secondTree))] + rest,
                               intoFault, intoContent);
            o == Outcome(Route(b, first, firstTree, intoFault, intoContent).body,
                         Some(MultipleBodyElements), |pre| + |mid| + 2)
  {
    var s := Got(Start(first, firstTree));
    var tail := mid + [Got(Start(second, secondTree))] + rest;
    assert pre + [s] + mid + [Got(Start(second, secondTree))] + rest == pre + ([s] + tail);
    assert ([s] + tail)[1..] == tail;
    SkipsOtherTokens(pre, [s] + tail, false, b, intoFault, intoContent);
    SecondElementRejected(mid, second, secondTree, rest, Route(b, first, firstTree, intoFault, intoContent).body,
                          intoFault, intoContent);
  }

  /** Starting from a Body without a Fault, a decode that got past the
      destination check leaves exactly one of Fault and Content, and a Fault
      never comes with a content type set by the decode. */
  lemma FaultAndContentExclusive<P>(b: BodyView<P>, input: seq<Read>,
                                    intoFault: ElementDecoder<Fault>, intoContent: ElementDecoder<P>)
    requires b.fault.None?
    ensures var o := Unmarshal(b, input, intoFault, intoContent);
            o.result != Some(InvalidDestination) ==>
              && (o.body.fault.Some? <==> o.body.content.None?)
              && (o.body.fault.Some? ==> o.body.contentType == b.contentType)
  {
  }

  /** The two errors the decoder raises itself carry different texts, so a
      caller can tell a missing destination from a multiple-element Body. */
  lemma ErrorTextsDistinct(e: BodyError, f: BodyError)
    requires !e.Propagated? && !f.Propagated?
    ensures Message(e) == Message(f) <==> e == f
  {
    assert |Message(InvalidDestination)| < |Message(MultipleBodyElements)|;
  }

  /** A Fault's error text is its faultstring and depends on nothing else. */
  lemma FaultErrorText(f: Fault, g: Fault)
    ensures f.Error() == f.faultString
    ensures f.Error() == g.Error() <==> f.faultString == g.faultString
  {
  }
}
