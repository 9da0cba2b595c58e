# SOAP Body decoder (promosoap) in Dafny

This project models the SOAP 1.1 Body decoder of the promosoap Go package. That decoder is `(*Body).UnmarshalXML`, which fills a `Body` record with either a SOAP Fault or the caller's payload. The model also covers the `Body` and `Fault` records and `(*Fault).Error`.

The decoder walks the XML tokens of a SOAP Body:

- It refuses a Body that has no preset `Content` destination.
- It sets the XML decoder's default namespace to the PromoStandards Product Data Service namespace and installs an entity map.
- It sends the first child element to a fresh `Fault` record when that element is `Fault` in the SOAP 1.1 envelope namespace (`http://schemas.xmlsoap.org/soap/envelope/`). Any other element goes into the caller's `Content`, and its local name is recorded as `SOAPBodyContentType`.
- It rejects a second child element. The WS-I Basic Profile's wrapped document/literal style requires exactly one Body child.
- It stops with success at the first end-element.

Layout:

- `soap.dfy`, module `Soap`. It holds the namespaces and the data model: `Name`, `Token`, `Read`, `Fault`, `BodyError`, `Decoded`. It gives the pure specification of the walk (`Route`, `Walk`, `Unmarshal`) and the imperative state:
  - `Decoder` is the stream cursor plus the `DefaultSpace`/`Entity` settings.
  - `Destination` is the caller-owned payload object.
  - `Body` has the fields `fault`, `content` and `contentType`.
  - `Body.UnmarshalXML` is a `while` loop with a `consumed` flag. It is proved to produce exactly what `Unmarshal` specifies.
- `soap_properties.dfy`, module `SoapProperties`. It holds lemmas about that specification.

How the XML library is abstracted:

- The token stream is a sequence of reads. Each read is either a token or a library error.
- `EndOfInput` stands for whatever error the library reports when the stream runs out before the walk ends. The walk passes it on unchanged.
- A start-element token carries its own subtree.
- Decoding one element (`d.DecodeElement`) is a caller-supplied `ElementDecoder`. It gives the target's new value and, possibly, a failure. On a failure, the value is whatever that decoding had written so far.
- `Content` is a reference to a `Destination` object. So "decoded into the existing Content, not replaced" is stated as reference equality plus an update of that object's value.

Behaviour of the code worth knowing, which the model keeps as written:

- **Entity map.** The `soap`, `ns` and `tns` entries are assigned to `d.Entity`. That is the library's entity-expansion map, not a namespace-prefix table. The model only records that the assignment happens.
- **Partial writes.** A failed sub-decode leaves earlier writes in place: either the new Fault record with `Content` cleared, or the updated content type and a partly decoded destination.
- **Content type.** `SOAPBodyContentType` is set before the payload is decoded, so it stays set when that decoding fails. It is never cleared when a Fault is decoded.
- **Fault and Content exclusive.** This holds only when the Body starts without a Fault. A Body that already holds a Fault and then decodes a payload keeps both. `FaultAndContentExclusive` states the property with that condition.
- **Destination guard.** The guard at soap.go:67 only tests `Content` against a nil interface. Its message says "Content must be a pointer to a struct", but a non-pointer or typed-nil `Content` passes the guard. Such a Body still succeeds when it is empty or holds a Fault child. It fails only inside the element decoding, when a payload child arrives.
- **Error texts.** The decoder's own two errors carry fixed texts. A propagated error keeps the library's text.

## Model

| member | source | states |
|---|---|---|
| Soap.Unmarshal | soap.go:66-123 | The result is `InvalidDestination` if and only if no destination was preset. In that case nothing is read and the Body is unchanged. The decoder never reads past the end of the stream. |
| Soap.Walk | soap.go:85-120 | The token loop reads no more than the stream holds and never returns `InvalidDestination`. Success ends on an end-element or absent token. `MultipleBodyElements` is raised on a start-element. Once a child is consumed, the Body never changes again. A changed Fault means Content was cleared and the content type kept. Content is cleared only when a Fault is set. |
| Soap.Route | soap.go:99-116 | Routes the first child element. A SOAP 1.1 Fault sets a Fault record, clears Content and keeps the content type. Any other element keeps the Fault, leaves a destination in place and sets the content type to its local name. |
| Soap.Message | soap.go:67-98 | These are the texts of the decoder's own two errors, "Content must be a pointer to a struct" and the multiple-elements WS-I text. Each text names exactly one of the two errors. |
| Soap.Fault.Error | soap.go:125-127 | The error text is the faultstring. Putting it back into the faultstring slot, with the other three fields, rebuilds the Fault. |
| Soap.Body.DecodeChild | soap.go:99-116 | Routes one child element. A SOAP 1.1 Fault gets a fresh record and Content is cleared. Clearing drops only the reference, so the caller's destination keeps its value. Any other element sets the content type and is decoded into the same destination object, and the Fault is untouched. |
| Soap.Body.UnmarshalXML | soap.go:66-123 | The method returns the error, leaves the Body and advances the stream exactly as `Unmarshal` specifies. It sets DefaultSpace to the Product Data Service namespace and installs the soap/ns/tns entity map only when a destination is present. Otherwise both settings are unchanged. It never replaces the destination reference. When a Fault child clears Content, the caller's destination keeps its value. |
| SoapProperties.SkipsOtherTokens | soap.go:95-119 | Tokens that are neither start- nor end-elements are consumed without changing the Body or the state of the walk. |
| SoapProperties.ReadFailureStops | soap.go:87-89 | A failed read returns that same error at once and leaves the Body as it was. |
| SoapProperties.EndElementStops | soap.go:91-118 | The first end-element or nil token ends the walk with success. The Body is unchanged and nothing after it is read. For an empty Body, neither Fault nor Content changes. |
| SoapProperties.SecondElementRejected | soap.go:97-98 | After one child is consumed, any start-element returns `MultipleBodyElements`, whatever its name. |
| SoapProperties.MultipleChildrenRejected | soap.go:96-98 | A Body with two child elements is refused at the second one, whether the first was a Fault or a payload. The first child's writes remain. |
| SoapProperties.FaultChild | soap.go:99-108 | A SOAP 1.1 `Fault` child sets Fault to a freshly decoded record and sets Content to nil. It keeps the content type. If the Fault's decoding fails, that error is returned at once and these writes remain. |
| SoapProperties.PayloadChild | soap.go:109-116 | Any other child sets the content type to its local name. It is decoded into the current destination value, and Fault is untouched. If that decoding fails, the error is returned at once and these writes remain. |
| SoapProperties.OtherFaultsArePayload | soap.go:99-116 | The decoder treats any `Fault` element outside the SOAP 1.1 envelope namespace, such as the SOAP 1.2 one or one with no namespace, as payload. The Fault record is untouched, the content type becomes "Fault" and the element is decoded into the destination. A failure of that decoding is returned. |
| SoapProperties.Soap12FaultIsPayload | soap.go:99-116 | A `Fault` element in the SOAP 1.2 envelope namespace is decoded as payload. The Fault record is untouched, the content type becomes "Fault" and the destination receives the element. |
| SoapProperties.SingleFaultBody | soap.go:85-122 | A Body holding exactly one well-formed SOAP 1.1 Fault succeeds. It holds the decoded Fault, no Content and the old content type. The stream is read up to the Body's end-element. |
| SoapProperties.SinglePayloadBody | soap.go:85-122 | A Body holding exactly one payload element succeeds. The destination holds the decoded value, the content type is the element's local name and Fault is unchanged. |
| SoapProperties.FaultAndContentExclusive | soap.go:99-116 | Start from a Body without a Fault and pass the destination check. Afterwards exactly one of Fault and Content is present, and a Fault comes with the content type it started with. |
| SoapProperties.ErrorTextsDistinct | soap.go:67-98 | The two errors the decoder raises itself have different texts: "Content must be a pointer to a struct" and the multiple-elements WS-I text. A caller can tell them apart by text. |
| SoapProperties.FaultErrorText | soap.go:125-127 | A Fault's error text is its faultstring and depends on no other field. |

## Left out

- The XML tokenizer and the reflection-driven element decoding behind `d.Token` and `d.DecodeElement` are foreign library code. The model uses an abstract sequence of reads and a caller-supplied `ElementDecoder`. `Decoder.Token` only returns the next read.
- What `d.DefaultSpace` and `d.Entity` do inside the library is not modelled. The model only records the values assigned.
- `Envelope`, `Header` and `PromoStandardsRequestEnvelope` (soap.go:26-53) are data shapes with no logic. Only the library serialises them.
- The `XMLName` fields and struct tags are serialisation metadata for the library.
- The SOAP version and content-type constants (soap.go:10-15) are used by a transport layer that is not part of this model. The SOAP 1.2 namespace constant is kept. `Soap12FaultIsPayload` uses it to show that a SOAP 1.2 Fault is treated as payload.
- A `Content` that is not nil but is not a pointer to a struct (a non-pointer or typed-nil value) is not modelled. `Option<Destination<P>>` has no such case. The model leaves it to `intoContent` failing when a payload child arrives.
- The text of a propagated library error is not modelled. `Message` covers only the decoder's own two errors.
- The unused `start` argument of `UnmarshalXML` is not modelled.
- Element attributes are not modelled. The source passes the whole start-element, attributes included, to `d.DecodeElement`. An `ElementDecoder` sees only the name and the subtree, so two children that differ only in their attributes decode alike in the model.
- The Fault serialise-then-decode round trip is not modelled. It is a property of the library's element decoding, which the model leaves abstract.
- HTTP transport, request construction and the per-operation PromoStandards payload types are not part of this model.
