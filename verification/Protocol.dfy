/**
 The wire and storage records of common/protocol/protocol.go.  Go's nil-able pointers and maps are
 options, uint64 and uint32 counters are naturals, and the shell text of an XFRM command is replaced by
 the command it denotes.
 */
module Protocol {
  import opened Wrappers

  type Metadata = map<string, string>

  datatype Event = Event(
    version: int,
    index: nat,
    eventType: string,
    pepID: string,
    timestamp: string,
    serviceID: string,
    clientPubKey: string,
    clientOuterIP: string,
    clientInnerIP: string,
    clientInSPI: string,
    pepInSPI: string,
    reqID: nat,
    observed: bool,
    xfrmMode: string,
    xfrmPlanHash: string,
    metadata: Option<Metadata>,
    prevHash: string,
    eventHash: string)

  datatype Checkpoint = Checkpoint(
    version: int,
    pepID: string,
    epoch: nat,
    previousCheckpointHash: string,
    lastEventIndex: nat,
    lastEventHash: string,
    eventCount: int,
    createdAt: string,
    signature: string)

  datatype Evidence = Evidence(
    previousCheckpointHash: string,
    events: seq<Event>,
    checkpoint: Checkpoint)

  datatype CapacityRequest = CapacityRequest(
    pepID: string,
    pepSigningPubKey: string,
    measurement: string,
    policyHash: string,
    scope: seq<string>,
    maxSALifetime: int,
    history: Option<Evidence>)

  datatype Token = Token(
    version: int,
    tokenType: string,
    verifierID: string,
    pepID: string,
    pepSigningPubKey: string,
    measurement: string,
    policyHash: string,
    scope: seq<string>,
    issuedAt: string,
    expiresAt: string,
    maxSALifetime: int,
    observerProfile: string,
    checkpointHash: string,
    historyEpoch: nat,
    signature: string)

  datatype Binding = Binding(
    version: int,
    tokenHash: string,
    pepID: string,
    clientPubKey: string,
    serviceID: string,
    serviceIP: string,
    clientInnerIP: string,
    clientInSPI: string,
    pepInSPI: string,
    clientDHPub: string,
    pepDHPub: string,
    aead: string,
    saLifetime: int,
    expiresAt: string,
    signature: string)

  datatype ActivateRequest = ActivateRequest(
    clientPubKey: string,
    clientOuterIP: string,
    serviceID: string,
    clientInSPI: string,
    clientDHPub: string,
    aeadSuites: seq<string>)

  datatype ActivationResponse = ActivationResponse(
    serviceID: string,
    serviceIP: string,
    clientInnerIP: string,
    clientInSPI: string,
    pepInSPI: string,
    pepDHPub: string,
    aead: string,
    saLifetime: int,
    expiresAt: string,
    capacityToken: Option<Token>,
    saBinding: Option<Binding>)

  datatype TunnelParams = TunnelParams(
    serviceID: string,
    serviceIP: string,
    pepAddress: string,
    pepPort: int,
    clientInnerIP: string,
    clientInSPI: string,
    pepInSPI: string,
    pepDHPub: string,
    aead: string,
    saLifetime: int,
    expiresAt: string,
    capacityToken: Option<Token>,
    saBinding: Option<Binding>)

  /** The four kinds of `ip xfrm` command a plan contains, with the arguments the plan builder fills in. */
  datatype XfrmCommand =
    | StateAdd(src: string, dst: string, spi: string, reqID: nat, nattPort: int, key: string)
    | PolicyAdd(selSrc: string, selDst: string, dir: string, tmplSrc: string, tmplDst: string, tmplReqID: nat)
    | StateDelete(src: string, dst: string, spi: string)
    | PolicyDelete(selSrc: string, selDst: string, dir: string)

  datatype XfrmPlan = XfrmPlan(mode: string, commands: seq<XfrmCommand>, deleteCommands: seq<XfrmCommand>)

  datatype Session = Session(
    clientPubKey: string,
    serviceID: string,
    reqID: nat,
    clientInSPI: string,
    pepInSPI: string,
    clientOuterIP: string,
    clientInnerIP: string,
    pepOuterIP: string,
    serviceIP: string,
    nattPort: int,
    clientDHPub: string,
    pepDHPub: string,
    aead: string,
    c2pKey: string,
    p2cKey: string,
    expiresAt: string,
    xfrm: XfrmPlan)

  /** What json.Marshal is applied to before hashing or signing. */
  datatype Document =
    | EventDoc(event: Event)
    | CheckpointDoc(checkpoint: Checkpoint)
    | TokenDoc(token: Token)
    | TokenBody(token: Token, scope: multiset<string>)
    | BindingDoc(binding: Binding)
    | PlanDoc(plan: XfrmPlan)
}
