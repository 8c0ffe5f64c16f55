/** Which messages of issue-credential may come twice: what a second delivery does, at any later time. */
module CredentialReplays {
  import opened Results
  import opened Exchange
  import opened Encoding
  import opened Credentials
  import opened Threads
  import opened ThreadSteps
  import opened CredentialExchange
  import opened CredentialAgreement
  import Histories
  import H = CredentialHistories

  /** The states a record can be in once it has taken in a message of this kind. */
  predicate Past(b: Body, state: State) {
    match b
    case RequestCredential(_) => state in {RequestReceived, CredentialIssued, Done}
    case IssueCredential(_) => state in {CredentialReceived, Done}
    case CredentialAck => state == Done
    case _ => true
  }

  /** Every step of a run is a lawful step of each agent. */
  lemma StoreAdvances(g: Net, s: Event, sha256: Digest, a: nat)
    requires Enabled(g, s) && H.Sound(StoreOf(g, a))
    ensures H.Sound(StoreOf(Apply(g, s, sha256), a)) && H.Advances(StoreOf(g, a), StoreOf(Apply(g, s, sha256), a))
  {
    hide H.Sound, Handle;
    match s
    case User(b, c) => if a == b { H.Step(g.stores[a], c, sha256); }
    case Deliver(p, newId) =>
      if a == p.to.agent { H.Step(g.stores[a], Inbound(Some(Connection(p.to.connection, true)), p.message, newId), sha256); }
    case Lose(_) =>
    case Connect(_) =>
  }

  /** What one agent stores over a run. */
  ghost function StoresOf(gs: seq<Net>, a: nat): (ss: seq<CredentialStore>)
    ensures |ss| == |gs| && forall n :: 0 <= n < |gs| ==> ss[n] == StoreOf(gs[n], a)
  {
    seq(|gs|, n requires 0 <= n < |gs| => StoreOf(gs[n], a))
  }

  lemma StoresLawful(gs: seq<Net>, ss: seq<Event>, sha256: Digest, a: nat)
    requires Run(gs, ss, sha256)
    ensures Histories.Lawful(StoresOf(gs, a), H.Sound, H.Follows)
  {
    FirstNet(gs, ss, sha256);
    H.BornSound();
    hide H.Sound, Run, Apply, Enabled, H.Follows;
    forall n: nat | n + 1 < |gs| ensures Histories.LawfulStep(StoresOf(gs, a), n, H.Sound, H.Follows) {
      OneStep(gs, ss, sha256, n);
      if H.Sound(StoreOf(gs[n], a)) { StoreAdvances(gs[n], ss[n], sha256, a); }
    }
  }

  /** A record that has taken in a message is past it for ever. */
  lemma PastForEver(gs: seq<Net>, ss: seq<Event>, sha256: Digest, k: nat, i: nat, a: nat, id: nat, b: Body)
    requires Run(gs, ss, sha256) && k <= i < |gs| && id in StoreOf(gs[k], a).records
    requires Past(b, StoreOf(gs[k], a).records[id].state)
    ensures id in StoreOf(gs[i], a).records
    ensures StoreOf(gs[i], a).records[id].threadId == StoreOf(gs[k], a).records[id].threadId
    ensures Past(b, StoreOf(gs[i], a).records[id].state)
  {
    var kept := (r: Record<State, Data>, r': Record<State, Data>) =>
      r'.threadId == r.threadId && (Past(b, r.state) ==> Past(b, r'.state));
    StoresLawful(gs, ss, sha256, a);
    assert forall r, r', r'' :: kept(r, r') && H.Follows(r', r'') ==> kept(r, r'');
    hide Run, StoreOf;
    Histories.Persists(StoresOf(gs, a), H.Sound, H.Follows, kept, k, i, id);
  }

  lemma SameAgents(g: Net, s: Event, sha256: Digest)
    requires Enabled(g, s)
    ensures Apply(g, s, sha256).stores.Keys == g.stores.Keys
  {
  }

  /** An agent is there throughout a run. */
  lemma {:induction false} Throughout(gs: seq<Net>, ss: seq<Event>, sha256: Digest, k: nat, i: nat)
    requires Run(gs, ss, sha256) && k <= i < |gs|
    ensures gs[i].stores.Keys == gs[k].stores.Keys
  {
    hide *;
    if k < i {
      Throughout(gs, ss, sha256, k, i - 1);
      OneStep(gs, ss, sha256, i - 1);
      SameAgents(gs[i - 1], ss[i - 1], sha256);
    }
  }

  /** A record past a message of these kinds refuses another one; the store stays as it is. */
  lemma Refused(s: CredentialStore, id: nat, connection: nat, m: Msg, newId: nat)
    requires Clean(s) && id in s.records && s.records[id].threadId == m.ThreadId() && Past(m.body, s.records[id].state)
    requires !m.body.ProposeCredential? && !m.body.OfferCredential?
    ensures Handle(s, Some(Connection(connection, true)), m, newId).store == s
  {
    ViewStored(s, id);
    ViewFinds(s, m.ThreadId());
  }

  /** A proposal, and an offer with an attachment, always changes the store. */
  lemma Announces(s: CredentialStore, connection: nat, m: Msg, newId: nat)
    requires m.body.ProposeCredential? || (m.body.OfferCredential? && m.body.indyOffer.Some?)
    ensures |Handle(s, Some(Connection(connection, true)), m, newId).store.events| == |s.events| + 1
  {
  }

  /** Exactly which messages are harmless when they come again, whatever has happened in between: a second
      delivery leaves the recipient as it is if and only if the message is neither a proposal nor an offer. */
  lemma SecondDelivery(gs: seq<Net>, ss: seq<Event>, sha256: Digest, k: nat, i: nat, newId: nat)
    requires Run(gs, ss, sha256) && k < i < |gs| && ss[k].Deliver?
    ensures var p := ss[k].packet;
            && p.to.agent in gs[i].stores
            && var s := gs[i].stores[p.to.agent];
               Handle(s, Some(Connection(p.to.connection, true)), p.message, newId).store == s <==>
               !p.message.body.ProposeCredential? && !p.message.body.OfferCredential?
  {
    assert k < |ss|;
    hide Run, Handle, View, Clean, Agreed;
    var p := ss[k].packet;
    var t := p.message.ThreadId();
    Delivered(gs, ss, sha256, k);
    Reached(gs, ss, sha256, k);
    Reached(gs, ss, sha256, i);
    var front := ExpectedThere(gs[k], p, sha256, ANY);
    var s := gs[k].stores[p.to.agent];
    Handled(s, p.to.connection, p.message, ss[k].newId);
    TakenInThread(View(s, t), p.to.connection, p.message, ss[k].newId);
    var r := TakenIn(View(s, t), p.to.connection, p.message, ss[k].newId);
    Throughout(gs, ss, sha256, k, i);
    PastForEver(gs, ss, sha256, k + 1, i, p.to.agent, r.id, p.message.body);
    if p.message.body.ProposeCredential? || p.message.body.OfferCredential? {
      Announces(gs[i].stores[p.to.agent], p.to.connection, p.message, newId);
    } else {
      Refused(gs[i].stores[p.to.agent], r.id, p.to.connection, p.message, newId);
    }
  }

  lemma Delivered(gs: seq<Net>, ss: seq<Event>, sha256: Digest, k: nat)
    requires Run(gs, ss, sha256) && k < |ss| && ss[k].Deliver?
    ensures var p := ss[k].packet;
            && p in gs[k].inflight && p.to.agent in gs[k].stores && p.to.agent in gs[k + 1].stores
            && gs[k + 1].stores[p.to.agent] ==
               Handle(gs[k].stores[p.to.agent], Some(Connection(p.to.connection, true)), p.message, ss[k].newId).store
  {
  }
}
