/** Which protocols a connection is opened with, and which one its server may pick. */
module Negotiation {
  import opened Wrappers

  datatype Proto = Http2 | Http11 | Other(name: string)

  type Offer = seq<Proto>

  /** What openFreshAndSend passes as `alpn`: `tls.alpn ?? (http2 === false ? … : …)`. */
  function Argument(tlsAlpn: Option<Offer>, http2: bool): Offer {
    match tlsAlpn
    case Some(own) => own
    case None => if http2 then [Http2, Http11] else [Http11]
  }

  /** assembleTlsOptions: the argument, if there is one, fills in for the caller's own list only where
      that is missing. */
  function Assembled(tlsAlpn: Option<Offer>, argument: Option<Offer>): Option<Offer> {
    if argument.Some? && tlsAlpn.None? then argument else tlsAlpn
  }

  /** The handshake's own default. */
  function Offered(assembled: Option<Offer>): Offer {
    match assembled case Some(offer) => offer case None => [Http11]
  }

  /** What a request's first connection offers. */
  function FirstOffer(tlsAlpn: Option<Offer>, http2: bool): Offer {
    Offered(Assembled(tlsAlpn, Some(Argument(tlsAlpn, http2))))
  }

  /** What the connection of a re-send offers: it is opened without the argument. */
  function SecondOffer(tlsAlpn: Option<Offer>): Offer {
    Offered(Assembled(tlsAlpn, None))
  }

  /** A server picks from the offer or not at all; checkAlpn refuses anything else. */
  predicate MayPick(offer: Offer, pick: Option<Proto>) {
    pick.Some? ==> pick.value in offer
  }

  predicate Lists(tlsAlpn: Option<Offer>) {
    tlsAlpn.Some? && Http2 in tlsAlpn.value
  }

  /** The caller's own list is offered both times; without one, the first connection offers HTTP/2 and
      HTTP/1.1, or HTTP/1.1 alone if HTTP/2 is off, and the second HTTP/1.1 alone. */
  lemma OffersAre(tlsAlpn: Option<Offer>, http2: bool)
    ensures FirstOffer(tlsAlpn, http2) ==
            if tlsAlpn.Some? then tlsAlpn.value else if http2 then [Http2, Http11] else [Http11]
    ensures SecondOffer(tlsAlpn) == if tlsAlpn.Some? then tlsAlpn.value else [Http11]
  {
  }

  /** The two offers differ exactly where the caller has no list of its own and HTTP/2 is on: then the
      first lists HTTP/2 and the second does not. */
  lemma OffersDiffer(tlsAlpn: Option<Offer>, http2: bool)
    ensures Http2 in SecondOffer(tlsAlpn) <==> Lists(tlsAlpn)
    ensures Http2 in FirstOffer(tlsAlpn, http2) <==> Lists(tlsAlpn) || (tlsAlpn.None? && http2)
    ensures FirstOffer(tlsAlpn, http2) != SecondOffer(tlsAlpn) <==> tlsAlpn.None? && http2
  {
    assert [Http2, Http11][0] == Http2;
  }
}
