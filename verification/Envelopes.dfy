/** Packing, forward wrapping and unpacking (src/agent/EnvelopeService.ts, src/agent/MessageReceiver.ts,
    src/agent/helpers.ts). */
module Envelopes {
  import opened Results
  import C = Connections

  type Verkey = C.Verkey

  // A packed message opens for the wallets that hold one of its recipient keys, and for no others.
  datatype Wire<+P> = Packed(recipientKeys: seq<Verkey>, sender: Verkey, content: Content<P>)
  datatype Content<+P> = Payload(payload: P) | Forward(to: Option<Verkey>, message: Wire<P>)

  // What arrives is packed, or carries a message type and is taken as it is.
  datatype Inbound<+P> = Encrypted(wire: Wire<P>) | Plain(content: Content<P>)
  datatype Context<+P> = Context(content: Content<P>, sender: Option<Verkey>, recipient: Option<Verkey>)

  datatype OutboundMessage<+P> = OutboundMessage(payload: Content<P>, recipientKeys: seq<Verkey>,
                                                 routingKeys: seq<Verkey>, senderVk: Verkey, endpoint: string)
  datatype Error = NoDidDoc | NoService | CannotUnpack

  /** Addresses a message to the first agent service in the other side's DID document. */
  function CreateOutboundMessage<P>(connection: C.ConnectionRecord, payload: Content<P>): Result<OutboundMessage<P>, Error> {
    if connection.theirDidDoc.None? then Err(NoDidDoc)
    else
      var service := C.FirstAgentService(connection.theirDidDoc.value.service);
      if service.None? then Err(NoService)
      else Ok(OutboundMessage(payload, service.value.recipientKeys, service.value.routingKeys,
                              connection.verkey, service.value.serviceEndpoint))
  }

  // ----- the wallet -------------------------------------------------------------------------

  function KeyHeld(keys: seq<Verkey>, wallet: nat): (key: Option<Verkey>)
    ensures key.Some? <==> exists k :: k in keys && k.owner == wallet
    ensures key.Some? ==> key.value in keys && key.value.owner == wallet
  {
    if keys == [] then None
    else if keys[0].owner == wallet then Some(keys[0])
    else KeyHeld(keys[1..], wallet)
  }

  function Unpack<P>(wallet: nat, w: Wire<P>): Option<Context<P>> {
    var key := KeyHeld(w.recipientKeys, wallet);
    if key.None? then None else Some(Context(w.content, Some(w.sender), key))
  }

  // ----- packing ----------------------------------------------------------------------------

  function FirstKey(keys: seq<Verkey>): Option<Verkey> {
    if keys == [] then None else Some(keys[0])
  }

  /** The message inside one forward for each routing key, the last one outermost. */
  ghost function Wrapped<P>(w: Wire<P>, to: Option<Verkey>, routingKeys: seq<Verkey>, sender: Verkey): Wire<P> {
    if routingKeys == [] then w
    else
      var last := |routingKeys| - 1;
      Packed([routingKeys[last]], sender, Forward(to, Wrapped(w, to, routingKeys[..last], sender)))
  }

  ghost function PackedMessage<P>(m: OutboundMessage<P>): Wire<P> {
    Wrapped(Packed(m.recipientKeys, m.senderVk, m.payload), FirstKey(m.recipientKeys), m.routingKeys, m.senderVk)
  }

  method PackMessage<P>(m: OutboundMessage<P>) returns (packed: Wire<P>)
    ensures packed == PackedMessage(m)
  {
    packed := Packed(m.recipientKeys, m.senderVk, m.payload);
    ghost var first := packed;
    if |m.routingKeys| > 0 {
      for i := 0 to |m.routingKeys|
        invariant packed == Wrapped(first, FirstKey(m.recipientKeys), m.routingKeys[..i], m.senderVk)
      {
        var recipientKey := FirstKey(m.recipientKeys);
        var forwardMessage := Forward(recipientKey, packed);
        packed := Packed([m.routingKeys[i]], m.senderVk, forwardMessage);
        assert m.routingKeys[..i + 1][..i] == m.routingKeys[..i];
      }
      assert m.routingKeys[..|m.routingKeys|] == m.routingKeys;
    }
  }

  // ----- peeling ----------------------------------------------------------------------------

  datatype Peeled<+P> = Peeled(tos: seq<Option<Verkey>>, wire: Wire<P>)

  /** Opens one forward after another, each with the wallet of the next key; notes where each was to go. */
  ghost function Peel<P>(w: Wire<P>, keys: seq<Verkey>): Option<Peeled<P>> {
    if keys == [] then Some(Peeled([], w))
    else
      var unpacked := Unpack(keys[0].owner, w);
      if unpacked.None? || !unpacked.value.content.Forward? then None
      else
        var rest := Peel(unpacked.value.content.message, keys[1..]);
        if rest.None? then None
        else Some(Peeled([unpacked.value.content.to] + rest.value.tos, rest.value.wire))
  }

  function Reversed(keys: seq<Verkey>): seq<Verkey> {
    if keys == [] then [] else [keys[|keys| - 1]] + Reversed(keys[..|keys| - 1])
  }

  function Times<T>(x: T, n: nat): seq<T> {
    if n == 0 then [] else [x] + Times(x, n - 1)
  }

  /** Peeling a packed message with its routing keys in reverse gives exactly one forward for each key,
      each addressed to the first recipient key, and then the message packed for its recipients. */
  lemma {:induction false} ForwardLayers<P>(w: Wire<P>, to: Option<Verkey>, routingKeys: seq<Verkey>, sender: Verkey)
    ensures Peel(Wrapped(w, to, routingKeys, sender), Reversed(routingKeys)) == Some(Peeled(Times(to, |routingKeys|), w))
  {
    if routingKeys != [] {
      var last := |routingKeys| - 1;
      var layer := Wrapped(w, to, routingKeys, sender);
      ForwardLayers(w, to, routingKeys[..last], sender);
      assert Reversed(routingKeys)[1..] == Reversed(routingKeys[..last]);
      assert Unpack(routingKeys[last].owner, layer).value.content == layer.content;
    }
  }

  /** So for what `packMessage` makes: the forwards name the first of the recipient keys, if there is any, and inside is
      the payload, packed by the sender for all of them. */
  lemma PackedLayers<P>(m: OutboundMessage<P>)
    ensures Peel(PackedMessage(m), Reversed(m.routingKeys)) ==
            Some(Peeled(Times(if m.recipientKeys == [] then None else Some(m.recipientKeys[0]), |m.routingKeys|),
                        Packed(m.recipientKeys, m.senderVk, m.payload)))
  {
    ForwardLayers(Packed(m.recipientKeys, m.senderVk, m.payload), FirstKey(m.recipientKeys), m.routingKeys, m.senderVk);
  }

  /** No one but the holder of the key it is packed for opens a layer. */
  lemma OnlyHolderOpens<P>(w: Wire<P>, to: Option<Verkey>, routingKeys: seq<Verkey>, sender: Verkey, wallet: nat)
    requires routingKeys != []
    ensures Unpack(wallet, Wrapped(w, to, routingKeys, sender)).Some? <==> wallet == routingKeys[|routingKeys| - 1].owner
  {
    var keys := [routingKeys[|routingKeys| - 1]];
    assert keys[0] in keys;
  }

  // ----- receiving --------------------------------------------------------------------------

  /** What a receiver makes of an inbound message: at most two layers are opened, the second only below a
      forward and only if the wallet can. */
  ghost function Opened<P>(wallet: nat, inbound: Inbound<P>): Result<Context<P>, Error> {
    match inbound
    case Plain(content) => Ok(Context(content, None, None))
    case Encrypted(w) =>
      match Unpack(wallet, w)
      case None => Err(CannotUnpack)
      case Some(c) =>
        if c.content.Forward? && Unpack(wallet, c.content.message).Some?
        then Ok(Unpack(wallet, c.content.message).value)
        else Ok(c)
  }

  method UnpackMessage<P>(wallet: nat, inbound: Inbound<P>) returns (result: Result<Context<P>, Error>)
    ensures result == Opened(wallet, inbound)
  {
    if inbound.Encrypted? {
      var attempt := Unpack(wallet, inbound.wire);
      if attempt.None? { return Err(CannotUnpack); }
      var unpackedMessage := attempt.value;
      if unpackedMessage.content.Forward? {
        var inner := Unpack(wallet, unpackedMessage.content.message);
        if inner.Some? { unpackedMessage := inner.value; }
      }
      return Ok(unpackedMessage);
    } else {
      return Ok(Context(inbound.content, None, None));
    }
  }
}
