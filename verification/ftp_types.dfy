/** Values exchanged by one FTP fetch session: requests, replies, pooled
    connections, listing entries, and the events a session emits. */
module FtpTypes {
  import opened Wrappers

  type Byte = b: int | 0 <= b < 256

  /** Reply code 500, "syntax error, command unrecognized" (section 4.2.2 of RFC 959). */
  const SyntaxErrorCommandUnrecognized: nat := 500
  /** Reply code 502, "command not implemented" (section 4.2.2 of RFC 959). */
  const CommandNotImplemented: nat := 502

  datatype Address = Address(host: string, port: nat)

  /** The parts of a URL the session reads. Python's falsy `None` and `''` are
      both possible for the credentials. */
  datatype UrlInfo = UrlInfo(
    hostname: string,
    port: nat,
    path: string,
    username: Option<string>,
    password: Option<string>)

  /** A request; `address` is filled in once the control connection exists. */
  datatype Request = Request(urlInfo: UrlInfo, address: Option<Address>)

  datatype Reply = Reply(code: nat, text: string)

  /** A control-channel command such as `RETR /a.txt`. */
  datatype Command = Command(name: string, argument: string)

  /** The exceptions that can leave a session step. `ServerError` is
      `FTPServerError` carrying the reply code. */
  datatype FtpError =
    | ServerError(replyCode: nat)
    | NetworkError
    | ProtocolError
    | AssertionFailed

  /** A pooled connection; two values are the same connection iff equal. */
  datatype Conn = Conn(id: nat, address: Address)

  datatype Role = Control | Data

  /** Direction tag the control stream passes to its data observers. */
  datatype Direction = CommandDir | ReplyDir

  /** Action tag the data stream passes to its data observers. */
  datatype DataAction = DataRead | DataWrite

  /** Bytes crossing the control channel, with their direction. */
  datatype ControlChunk = ControlChunk(direction: Direction, data: seq<Byte>)

  /** One observable piece of a command's transfer: control traffic or data traffic. */
  datatype StreamIO =
    | ControlIO(chunk: ControlChunk)
    | DataIO(action: DataAction, data: seq<Byte>)

  datatype EntryKind = FileKind | DirectoryKind | SymlinkKind | UnknownKind

  /** One decoded listing entry; produced by the listing parsers. */
  datatype FileEntry = FileEntry(name: string, kind: EntryKind, size: Option<nat>, date: Option<int>)

  /** What a session does that someone else can observe: pool traffic, calls
      on the commander, clearing the data stream's observers, and calls on
      the recorder session. */
  datatype Event =
    | CheckOut(role: Role, conn: Conn)
    | CheckIn(role: Role, conn: Conn)
    | CloseConn(role: Role, conn: Conn)
    | Reconnect
    | Login(user: string, password: string)
    | SendCommand(command: Command)
    | ClearDataObservers
    | BeginControl(request: Request)
    | RequestControlData(bytes: seq<Byte>)
    | ResponseControlData(bytes: seq<Byte>)
    | PreResponse
    | ResponseData(bytes: seq<Byte>)
    | RecordResponse
    | EndControl
  {
    /** A call on the recorder session. */
    predicate IsRecorderCall() {
      BeginControl? || RequestControlData? || ResponseControlData? || PreResponse?
      || ResponseData? || RecordResponse? || EndControl?
    }

    /** Byte traffic forwarded to the recorder. */
    predicate IsTraffic() {
      RequestControlData? || ResponseControlData? || ResponseData?
    }

    /** Data-connection pool traffic. */
    predicate IsDataPool() {
      (CheckOut? || CheckIn? || CloseConn?) && role == Data
    }

    predicate IsControlCheckOut() {
      CheckOut? && role == Control
    }

    /** The phase markers of a session: control checkout, login, commands and
        the structural recorder calls. */
    predicate IsMilestone() {
      IsControlCheckOut() || Reconnect? || Login? || SendCommand? || BeginControl?
      || PreResponse? || RecordResponse? || EndControl?
    }
  }
}
