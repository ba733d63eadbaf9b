// Signaling envelopes (internal/signaling/messages.go) and who may send them
// through the server (internal/api/ws.go).
module Signaling {
  import opened Wrappers

  datatype MessageType =
    | AgentHello | AgentPresence | TransferOffer | TransferAccepted | TransferDenied
    | WebRTCOffer | WebRTCAnswer | WebRTCICE
    | TransferStarted | TransferProgress | TransferInterrupted | TransferRetryable
    | TransferCompleted | TransferFailed | TransferCancelled | TransferExpired
    | AgentDisconnected | Ping | Pong | ErrorMessage | Unsupported(name: string)

  // The payload of the envelopes that matter here is a progress report.
  datatype Envelope = Envelope(messageType: MessageType, agentID: string, deviceID: string, transferID: string,
                               fromAgentID: string, toAgentID: string, progress: Option<int>)

  datatype SignalingError =
    | MessageTypeRequired | UnsupportedMessageType | AgentIDRequired | DeviceIDRequired
    | TransferIDRequired | RouteTargetRequired | AgentOffline | SessionNotFound

  function ValidateEnvelope(e: Envelope): Option<SignalingError> {
    match e.messageType
    case Unsupported(name) => Some(if name == "" then MessageTypeRequired else UnsupportedMessageType)
    case AgentHello =>
      if e.agentID == "" then Some(AgentIDRequired) else if e.deviceID == "" then Some(DeviceIDRequired) else None
    case AgentPresence => if e.agentID == "" then Some(AgentIDRequired) else None
    case AgentDisconnected => if e.agentID == "" then Some(AgentIDRequired) else None
    case Ping => None
    case Pong => None
    case ErrorMessage => None
    case _ =>
      if e.transferID == "" then Some(TransferIDRequired)
      else if (e.messageType.WebRTCOffer? || e.messageType.WebRTCAnswer? || e.messageType.WebRTCICE?)
              && (e.fromAgentID == "" || e.toAgentID == "") then Some(RouteTargetRequired)
      else None
  }

  // What makes an envelope valid, and else what it lacks first.
  lemma ValidExactly(e: Envelope)
    ensures var v, m := ValidateEnvelope(e), e.messageType;
      var ofAgent := m.AgentHello? || m.AgentPresence? || m.AgentDisconnected?;
      var plain := m.Ping? || m.Pong? || m.ErrorMessage?;
      var ofRTC := m.WebRTCOffer? || m.WebRTCAnswer? || m.WebRTCICE?;
      && (v.None? <==>
            && !m.Unsupported?
            && (ofAgent ==> e.agentID != "") && (m.AgentHello? ==> e.deviceID != "")
            && (!ofAgent && !plain ==> e.transferID != "")
            && (ofRTC ==> e.fromAgentID != "" && e.toAgentID != ""))
      && (v.Some? ==>
            v.value == if m.Unsupported? then if m.name == "" then MessageTypeRequired else UnsupportedMessageType
                       else if ofAgent then if e.agentID == "" then AgentIDRequired else DeviceIDRequired
                       else if e.transferID == "" then TransferIDRequired
                       else RouteTargetRequired)
  {
  }

  // A transfer as the server knows it: to an agent, or by browser link.
  datatype Transfer = Transfer(id: string, fromAgentID: string, toAgent: Option<string>)

  function BrowserRecipient(transferID: string): string { "browser_recipient:" + transferID }

  // How a socket was authenticated: by a transfer ticket of the sending agent,
  // by an agent's own token, or as a browser recipient.
  datatype Socket = TicketSocket(ticket: Transfer) | TokenSocket(tokenAgent: string) | BrowserSocket(link: Transfer)
  {
    function AgentID(): string {
      match this
      case TicketSocket(t) => t.fromAgentID
      case TokenSocket(a) => a
      case BrowserSocket(t) => BrowserRecipient(t.id)
    }
    function ScopedTo(): string {
      match this
      case TicketSocket(t) => t.id
      case TokenSocket(_) => ""
      case BrowserSocket(t) => t.id
    }
    predicate AllowsTarget(agent: string) {
      match this
      case TicketSocket(t) => agent == (if t.toAgent.Some? then t.toAgent.value else BrowserRecipient(t.id))
      case TokenSocket(_) => false
      case BrowserSocket(t) => agent == t.fromAgentID || agent == BrowserRecipient(t.id)
    }
  }

  // authorizeTransferRole: which end of an agent transfer may send what.
  function AuthorizeRole(m: MessageType, fromSender: bool): Option<SignalingError> {
    match m
    case TransferOffer => if fromSender then None else Some(RouteTargetRequired)
    case WebRTCOffer => if fromSender then None else Some(RouteTargetRequired)
    case TransferAccepted => if !fromSender then None else Some(RouteTargetRequired)
    case TransferDenied => if !fromSender then None else Some(RouteTargetRequired)
    case WebRTCAnswer => if !fromSender then None else Some(RouteTargetRequired)
    case WebRTCICE => None
    case TransferStarted => None
    case TransferProgress => None
    case TransferInterrupted => None
    case TransferRetryable => None
    case TransferFailed => None
    case TransferCancelled => None
    case TransferExpired => None
    case TransferCompleted => if !fromSender then None else Some(RouteTargetRequired)
    case _ => Some(RouteTargetRequired)
  }

  // authorizeOutboundEnvelope; usable holds the transfers that
  // VerifyTransferUsable accepts.
  function Authorize(usable: map<string, Transfer>, s: Socket, e: Envelope): Option<SignalingError> {
    if e.fromAgentID == "" || e.fromAgentID != s.AgentID() then Some(AgentIDRequired)
    else if e.toAgentID == "" then Some(RouteTargetRequired)
    else if !s.TokenSocket? then
      if e.transferID != s.ScopedTo() then Some(SessionNotFound)
      else if !s.AllowsTarget(e.toAgentID) then Some(RouteTargetRequired)
      else if e.transferID !in usable then Some(SessionNotFound)
      else
        var t := usable[e.transferID];
        if t.toAgent.Some? && s.AgentID() == t.fromAgentID && e.toAgentID == t.toAgent.value
        then AuthorizeRole(e.messageType, true) else None
    else if e.transferID !in usable then Some(SessionNotFound)
    else
      var t := usable[e.transferID];
      if t.toAgent.None? then Some(RouteTargetRequired)
      else if s.AgentID() == t.fromAgentID && e.toAgentID == t.toAgent.value then AuthorizeRole(e.messageType, true)
      else if s.AgentID() == t.toAgent.value && e.toAgentID == t.fromAgentID then AuthorizeRole(e.messageType, false)
      else Some(RouteTargetRequired)
  }

  // The server's transfers, as its tickets were issued for them.
  predicate Issued(usable: map<string, Transfer>, s: Socket) {
    match s
    case TicketSocket(t) => t.id in usable ==> usable[t.id] == t
    case TokenSocket(_) => true
    case BrowserSocket(t) => t.toAgent.None? && (t.id in usable ==> usable[t.id] == t)
  }

  // On a transfer between agents, completion can only be announced by the
  // recipient's own token socket, to the sender: not by the sender, not by a
  // ticket holder, not by a browser, and not at all on a transfer to oneself.
  lemma OnlyTheRecipientAnnouncesCompletion(usable: map<string, Transfer>, s: Socket, e: Envelope)
    requires Issued(usable, s) && Authorize(usable, s, e).None?
    requires e.messageType.TransferCompleted?
    requires e.transferID in usable && usable[e.transferID].toAgent.Some? && usable[e.transferID].id == e.transferID
    ensures var t := usable[e.transferID];
      && s == TokenSocket(t.toAgent.value)
      && e.fromAgentID == t.toAgent.value && e.toAgentID == t.fromAgentID
      && t.fromAgentID != t.toAgent.value
  {
  }

  // What either end of a transfer between two agents may say over its own
  // token socket, and nothing else: the sender offers, the recipient answers
  // and completes, both report.
  predicate SenderMaySay(m: MessageType) {
    m.TransferOffer? || m.WebRTCOffer? || EitherMaySay(m)
  }

  predicate RecipientMaySay(m: MessageType) {
    m.TransferAccepted? || m.TransferDenied? || m.WebRTCAnswer? || m.TransferCompleted? || EitherMaySay(m)
  }

  predicate EitherMaySay(m: MessageType) {
    m.WebRTCICE? || m.TransferStarted? || m.TransferProgress? || m.TransferInterrupted? || m.TransferRetryable?
    || m.TransferFailed? || m.TransferCancelled? || m.TransferExpired?
  }

  lemma AgentsSayExactlyTheirPart(usable: map<string, Transfer>, agent: string, e: Envelope)
    requires e.transferID in usable && usable[e.transferID].toAgent.Some?
    requires usable[e.transferID].fromAgentID != usable[e.transferID].toAgent.value
    ensures var t := usable[e.transferID];
      Authorize(usable, TokenSocket(agent), e).None? <==>
        && e.fromAgentID == agent != "" && e.toAgentID != ""
        && ((agent == t.fromAgentID && e.toAgentID == t.toAgent.value && SenderMaySay(e.messageType))
            || (agent == t.toAgent.value && e.toAgentID == t.fromAgentID && RecipientMaySay(e.messageType)))
  {
  }

  // A browser recipient speaks on its own link only, to the sender or to itself.
  lemma BrowsersSpeakOnTheirLink(usable: map<string, Transfer>, link: Transfer, e: Envelope)
    requires Issued(usable, BrowserSocket(link))
    ensures Authorize(usable, BrowserSocket(link), e).None? <==>
      && link.id in usable && e.transferID == link.id
      && e.fromAgentID == "browser_recipient:" + link.id && e.toAgentID != ""
      && (e.toAgentID == link.fromAgentID || e.toAgentID == "browser_recipient:" + link.id)
  {
    assert ("browser_recipient:" + link.id) != "";
  }

  // Why an envelope is not let through: the first of these.
  lemma RefusedExactly(usable: map<string, Transfer>, s: Socket, e: Envelope)
    requires Authorize(usable, s, e).Some?
    ensures var agent := match s case TicketSocket(t) => t.fromAgentID case TokenSocket(a) => a case BrowserSocket(t) => "browser_recipient:" + t.id;
      Authorize(usable, s, e).value
      == if e.fromAgentID == "" || e.fromAgentID != agent then AgentIDRequired
         else if e.toAgentID == "" then RouteTargetRequired
         else match s
           case TokenSocket(_) => if e.transferID !in usable then SessionNotFound else RouteTargetRequired
           case TicketSocket(t) =>
             if e.transferID != t.id then SessionNotFound
             else if e.toAgentID != (if t.toAgent.Some? then t.toAgent.value else "browser_recipient:" + t.id) then RouteTargetRequired
             else if e.transferID !in usable then SessionNotFound
             else RouteTargetRequired
           case BrowserSocket(t) =>
             if e.transferID != t.id then SessionNotFound
             else if e.toAgentID != t.fromAgentID && e.toAgentID != "browser_recipient:" + t.id then RouteTargetRequired
             else if e.transferID !in usable then SessionNotFound
             else RouteTargetRequired
  {
  }

  // A ticket of a transfer by link says anything to the browser.
  lemma LinkTicketsSpeak(usable: map<string, Transfer>, ticket: Transfer, e: Envelope)
    requires Issued(usable, TicketSocket(ticket)) && ticket.toAgent.None?
    ensures Authorize(usable, TicketSocket(ticket), e).None? <==>
      && ticket.id in usable && e.transferID == ticket.id
      && e.fromAgentID == ticket.fromAgentID != "" && e.toAgentID == "browser_recipient:" + ticket.id
  {
    assert ("browser_recipient:" + ticket.id) != "";
  }

  // On a transfer by link, and to oneself, an agent's own socket: nothing on the
  // one, the sender's part on the other.
  lemma TokensElsewhere(usable: map<string, Transfer>, agent: string, e: Envelope)
    requires e.transferID in usable
    requires usable[e.transferID].toAgent.None? || usable[e.transferID].toAgent.value == usable[e.transferID].fromAgentID
    ensures Authorize(usable, TokenSocket(agent), e).None? <==>
      && usable[e.transferID].toAgent.Some? && e.fromAgentID == agent == usable[e.transferID].fromAgentID != ""
      && e.toAgentID == agent && SenderMaySay(e.messageType)
  {
  }

  // A ticket speaks for the sender of its own transfer only, to the other end.
  lemma TicketsSpeakForTheSender(usable: map<string, Transfer>, ticket: Transfer, e: Envelope)
    requires Issued(usable, TicketSocket(ticket)) && ticket.toAgent.Some?
    ensures Authorize(usable, TicketSocket(ticket), e).None? <==>
      && ticket.id in usable && e.transferID == ticket.id
      && e.fromAgentID == ticket.fromAgentID != "" && e.toAgentID == ticket.toAgent.value != ""
      && SenderMaySay(e.messageType)
  {
  }
}
