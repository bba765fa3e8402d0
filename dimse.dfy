/**
 * The DIMSE message envelopes: every command and response kind of the DICOM
 * Message Service Element (DICOM PS3.7 sections 9 and 10).
 *
 * Commands and responses are immutable once built, so both are plain values.
 * A command is a header (abstract syntax and message ID) around one request
 * variant per command kind; a response keeps the command it answers, a
 * status code and one reply variant per kind. Response constructors take a
 * command of their own kind only, which in C++ is the static type of their
 * first parameter and here a precondition on the command's kind.
 */
module Dimse {
  import opened Errors
  import opened Tags
  import opened DataSets

  /** The command kinds (dimseCommandType_t). */
  datatype CommandType =
    | CStore | CGet | CFind | CMove | CEcho | CCancel
    | NEventReport | NGet | NSet | NAction | NCreate | NDelete

  /** Message priority of the C-* commands. */
  datatype Priority = Low | Medium | High

  /** Status codes a response constructor sets on its own (DICOM PS3.7 Annex C). */
  const Success: uint16 := 0x0000
  const Pending: uint16 := 0xFF00

  /**
   * The Command Field (0000,0100) of a request of each kind, as listed in
   * Annex E of DICOM PS3.7.
   */
  function CommandField(t: CommandType): (code: uint16)
    ensures code < 0x8000
  {
    match t
    case CStore => 0x0001
    case CGet => 0x0010
    case CFind => 0x0020
    case CMove => 0x0021
    case CEcho => 0x0030
    case CCancel => 0x0FFF
    case NEventReport => 0x0100
    case NGet => 0x0110
    case NSet => 0x0120
    case NAction => 0x0130
    case NCreate => 0x0140
    case NDelete => 0x0150
  }

  /** The command kind a request's Command Field denotes, if any. */
  function CommandTypeOf(code: uint16): (r: Option<CommandType>)
    ensures r.Some? ==> CommandField(r.value) == code
  {
    if code == 0x0001 then Some(CStore)
    else if code == 0x0010 then Some(CGet)
    else if code == 0x0020 then Some(CFind)
    else if code == 0x0021 then Some(CMove)
    else if code == 0x0030 then Some(CEcho)
    else if code == 0x0FFF then Some(CCancel)
    else if code == 0x0100 then Some(NEventReport)
    else if code == 0x0110 then Some(NGet)
    else if code == 0x0120 then Some(NSet)
    else if code == 0x0130 then Some(NAction)
    else if code == 0x0140 then Some(NCreate)
    else if code == 0x0150 then Some(NDelete)
    else None
  }

  /** Decoding a kind's Command Field gives the kind back, so no two kinds share a code. */
  lemma CommandFieldRoundTrip(t: CommandType)
    ensures CommandTypeOf(CommandField(t)) == Some(t)
  {
  }

  /** Every kind except C-CANCEL has a response, whose Command Field has bit 15 set. */
  function ResponseField(t: CommandType): (code: uint16)
    requires t != CCancel
    ensures code >= 0x8000
  {
    CommandField(t) + 0x8000
  }

  /** A response's Command Field is never a request's, and it names the kind it answers. */
  lemma ResponseFieldIdentifiesKind(t: CommandType, u: CommandType)
    requires t != CCancel
    ensures ResponseField(t) != CommandField(u)
    ensures ResponseField(t) - 0x8000 == CommandField(t)
    ensures CommandTypeOf(ResponseField(t) - 0x8000) == Some(t)
  {
    CommandFieldRoundTrip(t);
  }

  /** The kind-specific part of a command. */
  datatype Request =
    | CStoreRq(priority: Priority, affectedSopClassUid: string, affectedSopInstanceUid: string,
               originatorAet: string, originatorMessageId: uint16, payload: DataSet)
    | CGetRq(priority: Priority, affectedSopClassUid: string, identifier: DataSet)
    | CFindRq(priority: Priority, affectedSopClassUid: string, identifier: DataSet)
    | CMoveRq(priority: Priority, affectedSopClassUid: string, destinationAet: string, identifier: DataSet)
    | CEchoRq(priority: Priority, affectedSopClassUid: string)
    | CCancelRq(priority: Priority, cancelMessageId: uint16)
    | NEventReportRq(affectedSopClassUid: string, affectedSopInstanceUid: string, eventId: uint16,
                     eventInformation: DataSet?)
    | NGetRq(requestedSopClassUid: string, requestedSopInstanceUid: string, attributeList: seq<TagId>)
    | NSetRq(requestedSopClassUid: string, requestedSopInstanceUid: string, modificationList: DataSet)
    | NActionRq(requestedSopClassUid: string, requestedSopInstanceUid: string, actionId: uint16,
                actionInformation: DataSet?)
    | NCreateRq(affectedSopClassUid: string, affectedSopInstanceUid: string, creationAttributes: DataSet?)
    | NDeleteRq(requestedSopClassUid: string, requestedSopInstanceUid: string)

  /** A DIMSE command (DimseCommand and its subclasses). */
  datatype Command = Command(abstractSyntax: string, messageId: uint16, request: Request)
  {
    function GetId(): uint16 { messageId }

    function GetAbstractSyntax(): string { abstractSyntax }

    function GetCommandType(): CommandType
    {
      match request
      case CStoreRq(_, _, _, _, _, _) => CStore
      case CGetRq(_, _, _) => CGet
      case CFindRq(_, _, _) => CFind
      case CMoveRq(_, _, _, _) => CMove
      case CEchoRq(_, _) => CEcho
      case CCancelRq(_, _) => CCancel
      case NEventReportRq(_, _, _, _) => NEventReport
      case NGetRq(_, _, _) => NGet
      case NSetRq(_, _, _) => NSet
      case NActionRq(_, _, _, _) => NAction
      case NCreateRq(_, _, _) => NCreate
      case NDeleteRq(_, _) => NDelete
    }

    /**
     * The downcast getAsXCommand: the very same command when it was built as
     * a `kind` command, and std::bad_cast otherwise.
     */
    function GetAs(kind: CommandType): (r: Result<Command>)
      ensures r.Ok? <==> GetCommandType() == kind
      ensures r.Ok? ==> r.value == this
      ensures r.Err? ==> r.error == BadCast
    {
      if GetCommandType() == kind then Ok(this) else Err(BadCast)
    }

    /** The affected SOP class UID, stored by the C-* commands, N-EVENT-REPORT and N-CREATE. */
    function GetAffectedSopClassUid(): (r: Result<string>)
      ensures r.Ok? <==> GetCommandType() !in {CCancel, NGet, NSet, NAction, NDelete}
      ensures r.Err? ==> r.error == MissingTagError
    {
      if request.CCancelRq? || request.NGetRq? || request.NSetRq? || request.NActionRq? || request.NDeleteRq?
      then Err(MissingTagError)
      else Ok(request.affectedSopClassUid)
    }

    /** The affected SOP instance UID, stored by C-STORE, N-EVENT-REPORT and N-CREATE. */
    function GetAffectedSopInstanceUid(): (r: Result<string>)
      ensures r.Ok? <==> GetCommandType() in {CStore, NEventReport, NCreate}
      ensures r.Err? ==> r.error == MissingTagError
    {
      if request.CStoreRq? || request.NEventReportRq? || request.NCreateRq?
      then Ok(request.affectedSopInstanceUid)
      else Err(MissingTagError)
    }

    /** The requested SOP class UID, stored by N-GET, N-SET, N-ACTION and N-DELETE. */
    function GetRequestedSopClassUid(): (r: Result<string>)
      ensures r.Ok? <==> GetCommandType() in {NGet, NSet, NAction, NDelete}
      ensures r.Err? ==> r.error == MissingTagError
    {
      if request.NGetRq? || request.NSetRq? || request.NActionRq? || request.NDeleteRq?
      then Ok(request.requestedSopClassUid)
      else Err(MissingTagError)
    }

    /** The requested SOP instance UID, stored by N-GET, N-SET, N-ACTION and N-DELETE. */
    function GetRequestedSopInstanceUid(): (r: Result<string>)
      ensures r.Ok? <==> GetCommandType() in {NGet, NSet, NAction, NDelete}
      ensures r.Ok? <==> GetRequestedSopClassUid().Ok?
      ensures r.Err? ==> r.error == MissingTagError
    {
      if request.NGetRq? || request.NSetRq? || request.NActionRq? || request.NDeleteRq?
      then Ok(request.requestedSopInstanceUid)
      else Err(MissingTagError)
    }

    /** The data set that travels after the command, or null when the command carries none. */
    function GetPayloadDataSet(): (p: DataSet?)
      ensures GetCommandType() in {CStore, CGet, CFind, CMove, NSet} ==> p != null
      ensures GetCommandType() in {CEcho, CCancel, NGet, NDelete} ==> p == null
    {
      match request
      case CStoreRq(_, _, _, _, _, payload) => payload
      case CGetRq(_, _, identifier) => identifier
      case CFindRq(_, _, identifier) => identifier
      case CMoveRq(_, _, _, identifier) => identifier
      case NEventReportRq(_, _, _, information) => information
      case NSetRq(_, _, modifications) => modifications
      case NActionRq(_, _, _, information) => information
      case NCreateRq(_, _, attributes) => attributes
      case _ => null
    }

    function GetOriginatorAet(): string
      requires request.CStoreRq?
    {
      request.originatorAet
    }

    function GetOriginatorMessageId(): uint16
      requires request.CStoreRq?
    {
      request.originatorMessageId
    }

    function GetDestinationAet(): string
      requires request.CMoveRq?
    {
      request.destinationAet
    }

    function GetCancelMessageId(): uint16
      requires request.CCancelRq?
    {
      request.cancelMessageId
    }

    function GetEventId(): uint16
      requires request.NEventReportRq?
    {
      request.eventId
    }

    function GetActionId(): uint16
      requires request.NActionRq?
    {
      request.actionId
    }

    /** The attributes an N-GET asks for; the empty list asks for all of them. */
    function GetAttributeList(): seq<TagId>
      requires request.NGetRq?
    {
      request.attributeList
    }
  }

  /** Exactly one kind narrows a command: the kind it was built as. */
  lemma NarrowsToExactlyItsKind(c: Command, kind: CommandType)
    ensures c.GetAs(kind).Ok? <==> kind == c.GetCommandType()
    ensures c.GetAs(c.GetCommandType()) == Ok(c)
  {
  }

  // ---------------------------------------------------------------------
  // Command constructors
  // ---------------------------------------------------------------------

  function CStoreCommand(abstractSyntax: string, messageId: uint16, priority: Priority,
                         affectedSopClassUid: string, affectedSopInstanceUid: string,
                         originatorAet: string, originatorMessageId: uint16, payload: DataSet): (c: Command)
    ensures c.GetCommandType() == CStore && c.GetId() == messageId && c.GetAbstractSyntax() == abstractSyntax
    ensures c.GetAffectedSopClassUid() == Ok(affectedSopClassUid)
    ensures c.GetAffectedSopInstanceUid() == Ok(affectedSopInstanceUid)
    ensures c.GetOriginatorAet() == originatorAet && c.GetOriginatorMessageId() == originatorMessageId
    ensures c.GetPayloadDataSet() == payload
  {
    Command(abstractSyntax, messageId,
            CStoreRq(priority, affectedSopClassUid, affectedSopInstanceUid, originatorAet, originatorMessageId, payload))
  }

  function CGetCommand(abstractSyntax: string, messageId: uint16, priority: Priority,
                       affectedSopClassUid: string, identifier: DataSet): (c: Command)
    ensures c.GetCommandType() == CGet && c.GetId() == messageId && c.GetAbstractSyntax() == abstractSyntax
    ensures c.GetAffectedSopClassUid() == Ok(affectedSopClassUid)
    ensures c.GetAffectedSopInstanceUid() == Err(MissingTagError)
    ensures c.GetPayloadDataSet() == identifier
  {
    Command(abstractSyntax, messageId, CGetRq(priority, affectedSopClassUid, identifier))
  }

  function CFindCommand(abstractSyntax: string, messageId: uint16, priority: Priority,
                        affectedSopClassUid: string, identifier: DataSet): (c: Command)
    ensures c.GetCommandType() == CFind && c.GetId() == messageId && c.GetAbstractSyntax() == abstractSyntax
    ensures c.GetAffectedSopClassUid() == Ok(affectedSopClassUid)
    ensures c.GetAffectedSopInstanceUid() == Err(MissingTagError)
    ensures c.GetPayloadDataSet() == identifier
  {
    Command(abstractSyntax, messageId, CFindRq(priority, affectedSopClassUid, identifier))
  }

  function CMoveCommand(abstractSyntax: string, messageId: uint16, priority: Priority,
                        affectedSopClassUid: string, destinationAet: string, identifier: DataSet): (c: Command)
    ensures c.GetCommandType() == CMove && c.GetId() == messageId && c.GetAbstractSyntax() == abstractSyntax
    ensures c.GetAffectedSopClassUid() == Ok(affectedSopClassUid)
    ensures c.GetDestinationAet() == destinationAet
    ensures c.GetPayloadDataSet() == identifier
  {
    Command(abstractSyntax, messageId, CMoveRq(priority, affectedSopClassUid, destinationAet, identifier))
  }

  /** The deprecated C-MOVE constructor, which takes no destination: the destination AET is empty. */
  function CMoveCommandWithoutDestination(abstractSyntax: string, messageId: uint16, priority: Priority,
                                          affectedSopClassUid: string, identifier: DataSet): (c: Command)
    ensures c.GetCommandType() == CMove && c.GetId() == messageId && c.GetAbstractSyntax() == abstractSyntax
    ensures c.GetAffectedSopClassUid() == Ok(affectedSopClassUid)
    ensures c.GetDestinationAet() == []
    ensures c.GetPayloadDataSet() == identifier
  {
    CMoveCommand(abstractSyntax, messageId, priority, affectedSopClassUid, [], identifier)
  }

  function CEchoCommand(abstractSyntax: string, messageId: uint16, priority: Priority,
                        affectedSopClassUid: string): (c: Command)
    ensures c.GetCommandType() == CEcho && c.GetId() == messageId && c.GetAbstractSyntax() == abstractSyntax
    ensures c.GetAffectedSopClassUid() == Ok(affectedSopClassUid)
    ensures c.GetPayloadDataSet() == null
  {
    Command(abstractSyntax, messageId, CEchoRq(priority, affectedSopClassUid))
  }

  function CCancelCommand(abstractSyntax: string, messageId: uint16, priority: Priority,
                          cancelMessageId: uint16): (c: Command)
    ensures c.GetCommandType() == CCancel && c.GetId() == messageId && c.GetAbstractSyntax() == abstractSyntax
    ensures c.GetCancelMessageId() == cancelMessageId
    ensures c.GetAffectedSopClassUid() == Err(MissingTagError)
    ensures c.GetPayloadDataSet() == null
  {
    Command(abstractSyntax, messageId, CCancelRq(priority, cancelMessageId))
  }

  /** N-EVENT-REPORT without event information: there is no payload. */
  function NEventReportCommand(abstractSyntax: string, messageId: uint16, affectedSopClassUid: string,
                               affectedSopInstanceUid: string, eventId: uint16): (c: Command)
    ensures c.GetCommandType() == NEventReport && c.GetId() == messageId && c.GetAbstractSyntax() == abstractSyntax
    ensures c.GetAffectedSopClassUid() == Ok(affectedSopClassUid)
    ensures c.GetAffectedSopInstanceUid() == Ok(affectedSopInstanceUid)
    ensures c.GetEventId() == eventId
    ensures c.GetPayloadDataSet() == null
  {
    Command(abstractSyntax, messageId, NEventReportRq(affectedSopClassUid, affectedSopInstanceUid, eventId, null))
  }

  function NEventReportCommandWithInformation(abstractSyntax: string, messageId: uint16, affectedSopClassUid: string,
                                              affectedSopInstanceUid: string, eventId: uint16,
                                              eventInformation: DataSet): (c: Command)
    ensures c.GetCommandType() == NEventReport && c.GetId() == messageId && c.GetAbstractSyntax() == abstractSyntax
    ensures c.GetAffectedSopClassUid() == Ok(affectedSopClassUid)
    ensures c.GetAffectedSopInstanceUid() == Ok(affectedSopInstanceUid)
    ensures c.GetEventId() == eventId
    ensures c.GetPayloadDataSet() == eventInformation
  {
    Command(abstractSyntax, messageId,
            NEventReportRq(affectedSopClassUid, affectedSopInstanceUid, eventId, eventInformation))
  }

  function NGetCommand(abstractSyntax: string, messageId: uint16, requestedSopClassUid: string,
                       requestedSopInstanceUid: string, attributeList: seq<TagId>): (c: Command)
    ensures c.GetCommandType() == NGet && c.GetId() == messageId && c.GetAbstractSyntax() == abstractSyntax
    ensures c.GetRequestedSopClassUid() == Ok(requestedSopClassUid)
    ensures c.GetRequestedSopInstanceUid() == Ok(requestedSopInstanceUid)
    ensures c.GetAffectedSopClassUid() == Err(MissingTagError)
    ensures c.GetAttributeList() == attributeList
    ensures c.GetPayloadDataSet() == null
  {
    Command(abstractSyntax, messageId, NGetRq(requestedSopClassUid, requestedSopInstanceUid, attributeList))
  }

  function NSetCommand(abstractSyntax: string, messageId: uint16, requestedSopClassUid: string,
                       requestedSopInstanceUid: string, modificationList: DataSet): (c: Command)
    ensures c.GetCommandType() == NSet && c.GetId() == messageId && c.GetAbstractSyntax() == abstractSyntax
    ensures c.GetRequestedSopClassUid() == Ok(requestedSopClassUid)
    ensures c.GetRequestedSopInstanceUid() == Ok(requestedSopInstanceUid)
    ensures c.GetPayloadDataSet() == modificationList
  {
    Command(abstractSyntax, messageId, NSetRq(requestedSopClassUid, requestedSopInstanceUid, modificationList))
  }

  function NActionCommandWithInformation(abstractSyntax: string, messageId: uint16, requestedSopClassUid: string,
                                         requestedSopInstanceUid: string, actionId: uint16,
                                         actionInformation: DataSet): (c: Command)
    ensures c.GetCommandType() == NAction && c.GetId() == messageId && c.GetAbstractSyntax() == abstractSyntax
    ensures c.GetRequestedSopClassUid() == Ok(requestedSopClassUid)
    ensures c.GetRequestedSopInstanceUid() == Ok(requestedSopInstanceUid)
    ensures c.GetActionId() == actionId
    ensures c.GetPayloadDataSet() == actionInformation
  {
    Command(abstractSyntax, messageId,
            NActionRq(requestedSopClassUid, requestedSopInstanceUid, actionId, actionInformation))
  }

  /** N-ACTION without action information: there is no payload. */
  function NActionCommand(abstractSyntax: string, messageId: uint16, requestedSopClassUid: string,
                          requestedSopInstanceUid: string, actionId: uint16): (c: Command)
    ensures c.GetCommandType() == NAction && c.GetId() == messageId && c.GetAbstractSyntax() == abstractSyntax
    ensures c.GetRequestedSopClassUid() == Ok(requestedSopClassUid)
    ensures c.GetRequestedSopInstanceUid() == Ok(requestedSopInstanceUid)
    ensures c.GetActionId() == actionId
    ensures c.GetPayloadDataSet() == null
  {
    Command(abstractSyntax, messageId, NActionRq(requestedSopClassUid, requestedSopInstanceUid, actionId, null))
  }

  function NCreateCommandWithAttributes(abstractSyntax: string, messageId: uint16, affectedSopClassUid: string,
                                        affectedSopInstanceUid: string, attributeList: DataSet): (c: Command)
    ensures c.GetCommandType() == NCreate && c.GetId() == messageId && c.GetAbstractSyntax() == abstractSyntax
    ensures c.GetAffectedSopClassUid() == Ok(affectedSopClassUid)
    ensures c.GetAffectedSopInstanceUid() == Ok(affectedSopInstanceUid)
    ensures c.GetPayloadDataSet() == attributeList
  {
    Command(abstractSyntax, messageId, NCreateRq(affectedSopClassUid, affectedSopInstanceUid, attributeList))
  }

  /** N-CREATE without an attribute list: there is no payload. */
  function NCreateCommand(abstractSyntax: string, messageId: uint16, affectedSopClassUid: string,
                          affectedSopInstanceUid: string): (c: Command)
    ensures c.GetCommandType() == NCreate && c.GetId() == messageId && c.GetAbstractSyntax() == abstractSyntax
    ensures c.GetAffectedSopClassUid() == Ok(affectedSopClassUid)
    ensures c.GetAffectedSopInstanceUid() == Ok(affectedSopInstanceUid)
    ensures c.GetPayloadDataSet() == null
  {
    Command(abstractSyntax, messageId, NCreateRq(affectedSopClassUid, affectedSopInstanceUid, null))
  }

  function NDeleteCommand(abstractSyntax: string, messageId: uint16, requestedSopClassUid: string,
                          requestedSopInstanceUid: string): (c: Command)
    ensures c.GetCommandType() == NDelete && c.GetId() == messageId && c.GetAbstractSyntax() == abstractSyntax
    ensures c.GetRequestedSopClassUid() == Ok(requestedSopClassUid)
    ensures c.GetRequestedSopInstanceUid() == Ok(requestedSopInstanceUid)
    ensures c.GetAffectedSopClassUid() == Err(MissingTagError)
    ensures c.GetPayloadDataSet() == null
  {
    Command(abstractSyntax, messageId, NDeleteRq(requestedSopClassUid, requestedSopInstanceUid))
  }

  // ---------------------------------------------------------------------
  // Responses
  // ---------------------------------------------------------------------

  /** The sub-operation counters of C-GET and C-MOVE responses. */
  datatype Counters = Counters(remaining: uint32, completed: uint32, failed: uint32, warning: uint32)

  /** The kind-specific part of a response. */
  datatype Reply =
    | CStoreRsp
    | CGetRsp(counters: Counters, identifier: DataSet?)
    | CFindRsp(identifier: DataSet?)
    | CMoveRsp(counters: Counters, identifier: DataSet?)
    | CEchoRsp
    | NEventReportRsp(eventReply: DataSet?)
    | NGetRsp(attributeList: DataSet?)
    | NSetRsp(modifiedAttributes: seq<TagId>)
    | NActionRsp(actionReply: DataSet?)
    | NCreateRsp(affectedSopInstanceUid: string, attributeList: DataSet?)
    | NDeleteRsp

  /** The command kind a reply variant answers. */
  function ReplyType(reply: Reply): CommandType
  {
    match reply
    case CStoreRsp => CStore
    case CGetRsp(_, _) => CGet
    case CFindRsp(_) => CFind
    case CMoveRsp(_, _) => CMove
    case CEchoRsp => CEcho
    case NEventReportRsp(_) => NEventReport
    case NGetRsp(_) => NGet
    case NSetRsp(_) => NSet
    case NActionRsp(_) => NAction
    case NCreateRsp(_, _) => NCreate
    case NDeleteRsp => NDelete
  }

  /** A DIMSE response (DimseResponse and its subclasses). */
  datatype Response = Response(command: Command, statusCode: uint16, reply: Reply)
  {
    /** The reply variant belongs to the kind of the command it answers. */
    predicate Answers(c: Command)
    {
      command == c && ReplyType(reply) == c.GetCommandType()
    }

    function GetStatusCode(): uint16 { statusCode }

    function GetAbstractSyntax(): string { command.abstractSyntax }

    /** The message ID of the command this response answers. */
    function GetMessageIdBeingRespondedTo(): uint16 { command.messageId }

    /** The data set that travels after the response; the kinds without one give null. */
    function GetPayloadDataSet(): (p: DataSet?)
      ensures ReplyType(reply) in {CStore, CEcho, NSet, NDelete} ==> p == null
    {
      match reply
      case CGetRsp(_, identifier) => identifier
      case CFindRsp(identifier) => identifier
      case CMoveRsp(_, identifier) => identifier
      case NEventReportRsp(eventReply) => eventReply
      case NGetRsp(attributes) => attributes
      case NActionRsp(actionReply) => actionReply
      case NCreateRsp(_, attributes) => attributes
      case _ => null
    }

    /** Covers getRemaining/Completed/Failed/WarningSubOperations of CPartialResponse. */
    function GetSubOperations(): Counters
      requires reply.CGetRsp? || reply.CMoveRsp?
    {
      reply.counters
    }

    /** The event ID of an N-EVENT-REPORT response, taken from the command it answers. */
    function GetEventId(): uint16
      requires command.request.NEventReportRq?
    {
      command.request.eventId
    }

    /** The action ID of an N-ACTION response, taken from the command it answers. */
    function GetActionId(): uint16
      requires command.request.NActionRq?
    {
      command.request.actionId
    }

    function GetModifiedAttributes(): seq<TagId>
      requires reply.NSetRsp?
    {
      reply.modifiedAttributes
    }

    /** The affected SOP instance UID of an N-CREATE response. */
    function GetCreatedInstanceUid(): string
      requires reply.NCreateRsp?
    {
      reply.affectedSopInstanceUid
    }
  }

  /** A response of a well-formed kind narrows no differently than its command. */
  lemma ResponseKindIsCommandKind(r: Response, c: Command)
    requires r.Answers(c)
    ensures c.GetAs(ReplyType(r.reply)) == Ok(r.command)
    ensures ReplyType(r.reply) != CCancel
    ensures ResponseField(ReplyType(r.reply)) == CommandField(c.GetCommandType()) + 0x8000
  {
  }

  function CStoreResponse(command: Command, responseCode: uint16): (r: Response)
    requires command.GetCommandType() == CStore
    ensures r.Answers(command) && r.GetStatusCode() == responseCode
    ensures r.GetMessageIdBeingRespondedTo() == command.GetId()
    ensures r.GetPayloadDataSet() == null
  {
    Response(command, responseCode, CStoreRsp)
  }

  /** C-GET response listing the failed sub-operations in `identifier`. */
  function CGetResponseWithIdentifier(command: Command, responseCode: uint16, remaining: uint32, completed: uint32,
                                      failed: uint32, warning: uint32, identifier: DataSet): (r: Response)
    requires command.GetCommandType() == CGet
    ensures r.Answers(command) && r.GetStatusCode() == responseCode
    ensures r.GetSubOperations() == Counters(remaining, completed, failed, warning)
    ensures r.GetPayloadDataSet() == identifier
  {
    Response(command, responseCode, CGetRsp(Counters(remaining, completed, failed, warning), identifier))
  }

  function CGetResponse(command: Command, responseCode: uint16, remaining: uint32, completed: uint32,
                        failed: uint32, warning: uint32): (r: Response)
    requires command.GetCommandType() == CGet
    ensures r.Answers(command) && r.GetStatusCode() == responseCode
    ensures r.GetSubOperations() == Counters(remaining, completed, failed, warning)
    ensures r.GetPayloadDataSet() == null
  {
    Response(command, responseCode, CGetRsp(Counters(remaining, completed, failed, warning), null))
  }

  /** A pending C-FIND response carrying one match. */
  function CFindResponseWithIdentifier(command: Command, identifier: DataSet): (r: Response)
    requires command.GetCommandType() == CFind
    ensures r.Answers(command) && r.GetStatusCode() == Pending
    ensures r.GetPayloadDataSet() == identifier
  {
    Response(command, Pending, CFindRsp(identifier))
  }

  /** The final C-FIND response (success or failure). */
  function CFindResponse(command: Command, responseCode: uint16): (r: Response)
    requires command.GetCommandType() == CFind
    ensures r.Answers(command) && r.GetStatusCode() == responseCode
    ensures r.GetPayloadDataSet() == null
  {
    Response(command, responseCode, CFindRsp(null))
  }

  /** C-MOVE response listing the failed sub-operations in `identifier`. */
  function CMoveResponseWithIdentifier(command: Command, responseCode: uint16, remaining: uint32, completed: uint32,
                                       failed: uint32, warning: uint32, identifier: DataSet): (r: Response)
    requires command.GetCommandType() == CMove
    ensures r.Answers(command) && r.GetStatusCode() == responseCode
    ensures r.GetSubOperations() == Counters(remaining, completed, failed, warning)
    ensures r.GetPayloadDataSet() == identifier
  {
    Response(command, responseCode, CMoveRsp(Counters(remaining, completed, failed, warning), identifier))
  }

  function CMoveResponse(command: Command, responseCode: uint16, remaining: uint32, completed: uint32,
                         failed: uint32, warning: uint32): (r: Response)
    requires command.GetCommandType() == CMove
    ensures r.Answers(command) && r.GetStatusCode() == responseCode
    ensures r.GetSubOperations() == Counters(remaining, completed, failed, warning)
    ensures r.GetPayloadDataSet() == null
  {
    Response(command, responseCode, CMoveRsp(Counters(remaining, completed, failed, warning), null))
  }

  function CEchoResponse(command: Command, responseCode: uint16): (r: Response)
    requires command.GetCommandType() == CEcho
    ensures r.Answers(command) && r.GetStatusCode() == responseCode
    ensures r.GetPayloadDataSet() == null
  {
    Response(command, responseCode, CEchoRsp)
  }

  /** An N-EVENT-REPORT response with a reply payload, which denotes success. */
  function NEventReportResponseWithReply(command: Command, eventReply: DataSet): (r: Response)
    requires command.GetCommandType() == NEventReport
    ensures r.Answers(command) && r.GetStatusCode() == Success
    ensures r.GetEventId() == command.GetEventId()
    ensures r.GetPayloadDataSet() == eventReply
  {
    Response(command, Success, NEventReportRsp(eventReply))
  }

  function NEventReportResponse(command: Command, responseCode: uint16): (r: Response)
    requires command.GetCommandType() == NEventReport
    ensures r.Answers(command) && r.GetStatusCode() == responseCode
    ensures r.GetEventId() == command.GetEventId()
    ensures r.GetPayloadDataSet() == null
  {
    Response(command, responseCode, NEventReportRsp(null))
  }

  function NGetResponseWithAttributes(command: Command, responseCode: uint16, attributeList: DataSet): (r: Response)
    requires command.GetCommandType() == NGet
    ensures r.Answers(command) && r.GetStatusCode() == responseCode
    ensures r.GetPayloadDataSet() == attributeList
  {
    Response(command, responseCode, NGetRsp(attributeList))
  }

  function NGetResponse(command: Command, responseCode: uint16): (r: Response)
    requires command.GetCommandType() == NGet
    ensures r.Answers(command) && r.GetStatusCode() == responseCode
    ensures r.GetPayloadDataSet() == null
  {
    Response(command, responseCode, NGetRsp(null))
  }

  /** A successful N-SET response listing the attributes it modified. */
  function NSetResponseWithModified(command: Command, modifiedAttributes: seq<TagId>): (r: Response)
    requires command.GetCommandType() == NSet
    ensures r.Answers(command) && r.GetStatusCode() == Success
    ensures r.GetModifiedAttributes() == modifiedAttributes
    ensures r.GetPayloadDataSet() == null
  {
    Response(command, Success, NSetRsp(modifiedAttributes))
  }

  function NSetResponse(command: Command, responseCode: uint16): (r: Response)
    requires command.GetCommandType() == NSet
    ensures r.Answers(command) && r.GetStatusCode() == responseCode
    ensures r.GetModifiedAttributes() == []
  {
    Response(command, responseCode, NSetRsp([]))
  }

  /** A successful N-ACTION response with a reply payload. */
  function NActionResponseWithReply(command: Command, actionReply: DataSet): (r: Response)
    requires command.GetCommandType() == NAction
    ensures r.Answers(command) && r.GetStatusCode() == Success
    ensures r.GetActionId() == command.GetActionId()
    ensures r.GetPayloadDataSet() == actionReply
  {
    Response(command, Success, NActionRsp(actionReply))
  }

  function NActionResponse(command: Command, responseCode: uint16): (r: Response)
    requires command.GetCommandType() == NAction
    ensures r.Answers(command) && r.GetStatusCode() == responseCode
    ensures r.GetActionId() == command.GetActionId()
    ensures r.GetPayloadDataSet() == null
  {
    Response(command, responseCode, NActionRsp(null))
  }

  /** A successful N-CREATE response for the instance the command named. */
  function NCreateResponseWithAttributes(command: Command, attributeList: DataSet): (r: Response)
    requires command.GetCommandType() == NCreate
    ensures r.Answers(command) && r.GetStatusCode() == Success
    ensures Ok(r.GetCreatedInstanceUid()) == command.GetAffectedSopInstanceUid()
    ensures r.GetPayloadDataSet() == attributeList
  {
    Response(command, Success, NCreateRsp(command.request.affectedSopInstanceUid, attributeList))
  }

  /** A successful N-CREATE response for the instance the responder created. */
  function NCreateResponseForInstance(command: Command, affectedSopInstanceUid: string,
                                      attributeList: DataSet): (r: Response)
    requires command.GetCommandType() == NCreate
    ensures r.Answers(command) && r.GetStatusCode() == Success
    ensures r.GetCreatedInstanceUid() == affectedSopInstanceUid
    ensures r.GetPayloadDataSet() == attributeList
  {
    Response(command, Success, NCreateRsp(affectedSopInstanceUid, attributeList))
  }

  function NCreateResponse(command: Command, responseCode: uint16): (r: Response)
    requires command.GetCommandType() == NCreate
    ensures r.Answers(command) && r.GetStatusCode() == responseCode
    ensures Ok(r.GetCreatedInstanceUid()) == command.GetAffectedSopInstanceUid()
    ensures r.GetPayloadDataSet() == null
  {
    Response(command, responseCode, NCreateRsp(command.request.affectedSopInstanceUid, null))
  }

  /** A successful N-CREATE response without attributes. */
  function NCreateResponseForInstanceOnly(command: Command, affectedSopInstanceUid: string): (r: Response)
    requires command.GetCommandType() == NCreate
    ensures r.Answers(command) && r.GetStatusCode() == Success
    ensures r.GetCreatedInstanceUid() == affectedSopInstanceUid
    ensures r.GetPayloadDataSet() == null
  {
    Response(command, Success, NCreateRsp(affectedSopInstanceUid, null))
  }

  function NDeleteResponse(command: Command, responseCode: uint16): (r: Response)
    requires command.GetCommandType() == NDelete
    ensures r.Answers(command) && r.GetStatusCode() == responseCode
    ensures r.GetPayloadDataSet() == null
  {
    Response(command, responseCode, NDeleteRsp)
  }
}
