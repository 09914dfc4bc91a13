/**
 The text protocol: what a client may ask (parse_player_request in src/player/mod.rs), and what
 the server writes back (the formatting macros of src/player/in_room.rs).
 */
module TextProtocol {
  import opened Common
  import opened RoomCodes

  const NEWLINE: byte := 10
  const SPACE: byte := 32
  const PLUS: byte := 43
  const ZERO: byte := 48

  // The command words, a letter and a colon each.
  const CMD_A: Text := [65, 58]
  const CMD_C: Text := [67, 58]
  const CMD_D: Text := [68, 58]
  const CMD_I: Text := [73, 58]
  const CMD_J: Text := [74, 58]
  const CMD_N: Text := [78, 58]
  const CMD_O: Text := [79, 58]
  const CMD_S: Text := [83, 58]

  datatype MessageKind = Offer | Answer | Candidate

  datatype PlayerRequest =
    | Host
    | Join(code: RoomCode)
    | Seal
    | Relay(kind: MessageKind, to: u32, payload: Text)

  datatype ParseError =
    | NoNewline | NoSpace | UnexpectedPayload | ExpectedPayload | InvalidCommandWord | InvalidArgument

  // ----- splitting -----

  /** Rust's `split_once` with a single separator: the text before and after its first occurrence. */
  function SplitOnce(text: Text, sep: byte): Option<(Text, Text)> {
    if text == [] then None
    else if text[0] == sep then Some(([], text[1..]))
    else match SplitOnce(text[1..], sep)
      case None => None
      case Some((before, after)) => Some(([text[0]] + before, after))
  }

  lemma {:induction false} SplitParts(text: Text, sep: byte)
    ensures SplitOnce(text, sep).None? <==> sep !in text
    ensures SplitOnce(text, sep).Some? ==>
              var (before, after) := SplitOnce(text, sep).value;
              sep !in before && text == before + [sep] + after
  {
    if text != [] && text[0] != sep {
      SplitParts(text[1..], sep);
    }
  }

  /** Splitting finds exactly the separator that nothing before it contains. */
  lemma {:induction false} SplitJoined(before: Text, sep: byte, after: Text)
    requires sep !in before
    ensures SplitOnce(before + [sep] + after, sep) == Some((before, after))
  {
    var text := before + [sep] + after;
    if before == [] {
      assert text[1..] == after;
    } else {
      assert text[1..] == before[1..] + [sep] + after;
      SplitJoined(before[1..], sep, after);
      assert [text[0]] + before[1..] == before;
    }
  }

  // ----- decimal numbers -----

  predicate IsDigit(b: byte) { ZERO <= b <= ZERO + 9 }

  predicate AllDigits(text: Text) { forall i :: 0 <= i < |text| ==> IsDigit(text[i]) }

  /** The number a text of digits stands for, however long. */
  function Decimal(digits: Text): nat
    requires AllDigits(digits)
  {
    if digits == [] then 0
    else 10 * Decimal(digits[..|digits| - 1]) + (digits[|digits| - 1] - ZERO)
  }

  /** Rust's `parse::<u32>`: an optional plus sign, then at least one digit, without overflow. */
  function ParseU32(text: Text): Option<u32> {
    var digits := if |text| > 0 && text[0] == PLUS then text[1..] else text;
    if digits == [] || !AllDigits(digits) || Decimal(digits) >= 0x1_0000_0000 then None
    else Some(Decimal(digits))
  }

  function PrintNat(n: nat): Text {
    if n < 10 then [ZERO + n] else PrintNat(n / 10) + [ZERO + n % 10]
  }

  lemma {:induction false} DecimalPrinted(n: nat)
    ensures |PrintNat(n)| > 0 && AllDigits(PrintNat(n)) && Decimal(PrintNat(n)) == n
  {
    if n >= 10 {
      DecimalPrinted(n / 10);
      assert PrintNat(n)[..|PrintNat(n)| - 1] == PrintNat(n / 10);
    } else {
      assert PrintNat(n)[..0] == [];
    }
  }

  lemma ParsePrintU32(n: u32)
    ensures ParseU32(PrintNat(n)) == Some(n)
    ensures NEWLINE !in PrintNat(n) && SPACE !in PrintNat(n)
  {
    DecimalPrinted(n);
    assert forall i :: 0 <= i < |PrintNat(n)| ==> IsDigit(PrintNat(n)[i]);
  }

  // ----- requests of clients -----

  function ParseRelay(kind: MessageKind, argument: Text, payload: Text): Result<PlayerRequest, ParseError> {
    match ParseU32(argument)
    case None => Err(InvalidArgument)
    case Some(id) => if payload == [] then Err(ExpectedPayload) else Ok(Relay(kind, id, payload))
  }

  function ParseCommand(command: Text, argument: Text, payload: Text): Result<PlayerRequest, ParseError> {
    if command == CMD_J then
      if payload != [] then Err(UnexpectedPayload)
      else if argument == [] then Ok(Host)
      else if |argument| == 4 then
        match FromText(argument)
        case Ok(code) => Ok(Join(code))
        case Err(_) => Err(InvalidArgument)
      else Err(InvalidArgument)
    else if command == CMD_S then
      if payload != [] then Err(UnexpectedPayload)
      else if argument != [] then Err(InvalidArgument)
      else Ok(Seal)
    else if command == CMD_O then ParseRelay(Offer, argument, payload)
    else if command == CMD_A then ParseRelay(Answer, argument, payload)
    else if command == CMD_C then ParseRelay(Candidate, argument, payload)
    else Err(InvalidCommandWord)
  }

  function ParseRequest(text: Text): Result<PlayerRequest, ParseError> {
    match SplitOnce(text, NEWLINE)
    case None => Err(NoNewline)
    case Some((firstLine, payload)) =>
      match SplitOnce(firstLine, SPACE)
      case None => Err(NoSpace)
      case Some((command, argument)) => ParseCommand(command, argument, payload)
  }

  function CloseCodeFor(e: ParseError): CloseCode {
    match e
    case InvalidCommandWord => InvalidCommand
    case InvalidArgument => InvalidDestination
    case _ => InvalidFormat
  }

  /** A message: command word, space, argument, newline, payload. */
  function Frame(command: Text, argument: Text, payload: Text): Text {
    command + [SPACE] + argument + [NEWLINE] + payload
  }

  lemma ParseFrame(command: Text, argument: Text, payload: Text)
    requires SPACE !in command && NEWLINE !in command && NEWLINE !in argument
    ensures ParseRequest(Frame(command, argument, payload)) == ParseCommand(command, argument, payload)
  {
    SplitJoined(command + [SPACE] + argument, NEWLINE, payload);
    SplitJoined(command, SPACE, argument);
  }

  /** Every text with a newline, and a space in its first line, is a frame in one way. */
  lemma FrameOf(text: Text) returns (command: Text, argument: Text, payload: Text)
    requires ParseRequest(text) != Err(NoNewline) && ParseRequest(text) != Err(NoSpace)
    ensures SPACE !in command && NEWLINE !in command && NEWLINE !in argument
    ensures text == Frame(command, argument, payload)
    ensures ParseRequest(text) == ParseCommand(command, argument, payload)
  {
    SplitParts(text, NEWLINE);
    var firstLine := SplitOnce(text, NEWLINE).value.0;
    SplitParts(firstLine, SPACE);
    payload := SplitOnce(text, NEWLINE).value.1;
    command, argument := SplitOnce(firstLine, SPACE).value.0, SplitOnce(firstLine, SPACE).value.1;
    assert forall b :: b in command || b in argument ==> b in firstLine;
  }

  function Word(kind: MessageKind): Text {
    match kind case Offer => CMD_O case Answer => CMD_A case Candidate => CMD_C
  }

  /** The request as a client writes it: canonical argument, no plus sign, no leading zeros. */
  function PrintRequest(request: PlayerRequest): Text {
    match request
    case Host => Frame(CMD_J, [], [])
    case Join(code) => Frame(CMD_J, ToText(code), [])
    case Seal => Frame(CMD_S, [], [])
    case Relay(kind, to, payload) => Frame(Word(kind), PrintNat(to), payload)
  }

  /** The requests that have a written form: valid codes, non-empty payloads. */
  predicate Writable(request: PlayerRequest) {
    match request
    case Join(code) => RoomCodes.Valid(code)
    case Relay(_, _, payload) => payload != []
    case _ => true
  }

  /** A relay parses whichever way its number is written. */
  lemma ParseRelayFrame(kind: MessageKind, argument: Text, to: u32, payload: Text)
    requires NEWLINE !in argument && ParseU32(argument) == Some(to) && payload != []
    ensures ParseRequest(Frame(Word(kind), argument, payload)) == Ok(Relay(kind, to, payload))
  {
    ParseFrame(Word(kind), argument, payload);
  }

  lemma ParseJoinFrame(argument: Text)
    requires argument != [] ==> FromText(argument).Ok?
    ensures ParseRequest(Frame(CMD_J, argument, []))
         == if argument == [] then Ok(Host) else Ok(Join(FromText(argument).value))
  {
    if argument != [] {
      assert forall i :: 0 <= i < 4 ==> IsLetter(RoomCode(argument).bytes[i]);
    }
    ParseFrame(CMD_J, argument, []);
  }

  /** Parsing undoes printing, whatever newlines and spaces the payload holds. */
  lemma ParsePrinted(request: PlayerRequest)
    requires Writable(request)
    ensures ParseRequest(PrintRequest(request)) == Ok(request)
  {
    match request {
      case Host => ParseJoinFrame([]);
      case Join(code) => ParseJoinFrame(ToText(code));
      case Seal => ParseFrame(CMD_S, [], []);
      case Relay(kind, to, payload) =>
        ParsePrintU32(to);
        ParseRelayFrame(kind, PrintNat(to), to, payload);
    }
  }

  lemma AcceptedIsWritable(text: Text)
    requires ParseRequest(text).Ok?
    ensures Writable(ParseRequest(text).value)
  {
  }

  /** Whatever is accepted has a written form, so printing it and parsing again is stable. */
  lemma ReprintIsStable(text: Text, request: PlayerRequest)
    requires ParseRequest(text) == Ok(request)
    ensures ParseRequest(PrintRequest(request)) == Ok(request)
  {
    AcceptedIsWritable(text);
    ParsePrinted(request);
  }

  /** Exactly which texts are accepted as a relay of which payload to whom. */
  lemma RelayTexts(text: Text, kind: MessageKind, to: u32, payload: Text)
    ensures ParseRequest(text) == Ok(Relay(kind, to, payload))
      <==> payload != [] && exists argument ::
             NEWLINE !in argument && ParseU32(argument) == Some(to) && text == Frame(Word(kind), argument, payload)
  {
    if ParseRequest(text) == Ok(Relay(kind, to, payload)) {
      var command, argument, rest := FrameOf(text);
      assert command == Word(kind) && rest == payload;
    }
    forall argument | payload != [] && NEWLINE !in argument && ParseU32(argument) == Some(to)
                      && text == Frame(Word(kind), argument, payload)
      ensures ParseRequest(text) == Ok(Relay(kind, to, payload))
    {
      ParseFrame(Word(kind), argument, payload);
    }
  }

  /** A sign and leading zeros are accepted, so two texts can be the same request. */
  lemma SameRequestTwoTexts(payload: Text)
    requires payload != []
    ensures ParseRequest(Frame(CMD_O, [PLUS, ZERO, ZERO + 7], payload)) == Ok(Relay(Offer, 7, payload))
    ensures PrintRequest(Relay(Offer, 7, payload)) == Frame(CMD_O, [ZERO + 7], payload)
  {
    var argument: Text, digits: Text := [PLUS, ZERO, ZERO + 7], [ZERO, ZERO + 7];
    assert argument[1..] == digits && digits[..1] == [ZERO] && digits[..1][..0] == [];
    assert Decimal(digits[..1]) == 0;
    ParseFrame(CMD_O, argument, payload);
  }

  // ----- messages of the server -----

  datatype ServerMessage =
    | Welcome(id: u32)
    | Newcomer(id: u32)
    | RoomIs(code: RoomCode)
    | Departed(id: u32)
    | From(kind: MessageKind, sender: u32, content: Text)

  function Render(m: ServerMessage): Text {
    match m
    case Welcome(id) => Frame(CMD_I, PrintNat(id), [])
    case Newcomer(id) => Frame(CMD_N, PrintNat(id), [])
    case RoomIs(code) => Frame(CMD_J, ToText(code), [])
    case Departed(id) => Frame(CMD_D, PrintNat(id), [])
    case From(kind, sender, content) => Frame(Word(kind), PrintNat(sender), content)
  }

  function ReadNumbered(command: Text, id: u32, payload: Text): Option<ServerMessage> {
    if command == CMD_I then Some(Welcome(id))
    else if command == CMD_N then Some(Newcomer(id))
    else if command == CMD_D then Some(Departed(id))
    else if command == CMD_O then Some(From(Offer, id, payload))
    else if command == CMD_A then Some(From(Answer, id, payload))
    else if command == CMD_C then Some(From(Candidate, id, payload))
    else None
  }

  function ReadParts(command: Text, argument: Text, payload: Text): Option<ServerMessage> {
    if command == CMD_J then
      match FromText(argument)
      case Ok(code) => Some(RoomIs(code))
      case Err(_) => None
    else
      match ParseU32(argument)
      case None => None
      case Some(id) => ReadNumbered(command, id, payload)
  }

  /** How a client reads a text of the server: the mirror image of ParseRequest. */
  function Read(text: Text): Option<ServerMessage> {
    match SplitOnce(text, NEWLINE)
    case None => None
    case Some((firstLine, payload)) =>
      match SplitOnce(firstLine, SPACE)
      case None => None
      case Some((command, argument)) => ReadParts(command, argument, payload)
  }

  lemma ReadFrame(command: Text, argument: Text, payload: Text)
    requires SPACE !in command && NEWLINE !in command && NEWLINE !in argument
    ensures Read(Frame(command, argument, payload)) == ReadParts(command, argument, payload)
  {
    SplitJoined(command + [SPACE] + argument, NEWLINE, payload);
    SplitJoined(command, SPACE, argument);
  }

  lemma ReadNumberFrame(command: Text, argument: Text, id: u32, payload: Text)
    requires SPACE !in command && NEWLINE !in command && command != CMD_J
    requires NEWLINE !in argument && ParseU32(argument) == Some(id)
    ensures Read(Frame(command, argument, payload)) == ReadNumbered(command, id, payload)
  {
    ReadFrame(command, argument, payload);
  }

  lemma ReadFrom(kind: MessageKind, sender: u32, content: Text)
    ensures Read(Render(From(kind, sender, content))) == Some(From(kind, sender, content))
  {
    ParsePrintU32(sender);
    ReadNumberFrame(Word(kind), PrintNat(sender), sender, content);
  }

  lemma ReadRoom(code: RoomCode)
    requires RoomCodes.Valid(code)
    ensures Read(Render(RoomIs(code))) == Some(RoomIs(code))
  {
    assert forall i :: 0 <= i < 4 ==> IsLetter(code.bytes[i]);
    ReadFrame(CMD_J, ToText(code), []);
  }

  /** Every message the server writes is read back as itself, so no two look the same on the wire. */
  lemma ReadRendered(m: ServerMessage)
    requires m.RoomIs? ==> RoomCodes.Valid(m.code)
    ensures Read(Render(m)) == Some(m)
  {
    match m {
      case Welcome(id) => ParsePrintU32(id); ReadNumberFrame(CMD_I, PrintNat(id), id, []);
      case Newcomer(id) => ParsePrintU32(id); ReadNumberFrame(CMD_N, PrintNat(id), id, []);
      case Departed(id) => ParsePrintU32(id); ReadNumberFrame(CMD_D, PrintNat(id), id, []);
      case RoomIs(code) => ReadRoom(code);
      case From(kind, sender, content) => ReadFrom(kind, sender, content);
    }
  }

  /**
   The relay swaps addresses: when p's text asks for a payload to reach somebody, the text that
   reaches them is, read as a request, the same kind and payload addressed to p.
   */
  lemma RelaySwapsAddress(text: Text, request: PlayerRequest, p: u32)
    requires ParseRequest(text) == Ok(request) && request.Relay?
    ensures ParseRequest(Render(From(request.kind, p, request.payload))) == Ok(request.(to := p))
  {
    AcceptedIsWritable(text);
    ParsePrinted(request.(to := p));
  }

  // ----- the literal texts -----

  /** A text in ASCII, as its bytes. */
  function Ascii(s: string): Text
    requires forall i :: 0 <= i < |s| ==> s[i] as int < 128
  {
    seq(|s|, i requires 0 <= i < |s| => s[i] as int)
  }

  /** What the client writes, letter for letter. */
  lemma RequestsInWords(code: RoomCode, to: u32, payload: Text)
    ensures PrintRequest(Host) == Ascii("J: \n") && PrintRequest(Seal) == Ascii("S: \n")
    ensures PrintRequest(Join(code)) == Ascii("J: ") + code.bytes + Ascii("\n")
    ensures PrintRequest(Relay(Offer, to, payload)) == Ascii("O: ") + PrintNat(to) + Ascii("\n") + payload
    ensures PrintRequest(Relay(Answer, to, payload)) == Ascii("A: ") + PrintNat(to) + Ascii("\n") + payload
    ensures PrintRequest(Relay(Candidate, to, payload)) == Ascii("C: ") + PrintNat(to) + Ascii("\n") + payload
  {
    assert Ascii("\n") == [NEWLINE];
    assert Ascii("J: ") == CMD_J + [SPACE] && Ascii("S: ") == CMD_S + [SPACE] && Ascii("O: ") == CMD_O + [SPACE];
    assert Ascii("A: ") == CMD_A + [SPACE] && Ascii("C: ") == CMD_C + [SPACE];
  }

  /** What the server writes. */
  lemma ReportsInWords(id: u32, code: RoomCode, content: Text)
    ensures Render(Welcome(id)) == Ascii("I: ") + PrintNat(id) + Ascii("\n")
    ensures Render(Newcomer(id)) == Ascii("N: ") + PrintNat(id) + Ascii("\n")
    ensures Render(Departed(id)) == Ascii("D: ") + PrintNat(id) + Ascii("\n")
    ensures Render(RoomIs(code)) == Ascii("J: ") + code.bytes + Ascii("\n")
    ensures Render(From(Offer, id, content)) == Ascii("O: ") + PrintNat(id) + Ascii("\n") + content
    ensures Render(From(Answer, id, content)) == Ascii("A: ") + PrintNat(id) + Ascii("\n") + content
    ensures Render(From(Candidate, id, content)) == Ascii("C: ") + PrintNat(id) + Ascii("\n") + content
  {
    assert Ascii("\n") == [NEWLINE];
    assert Ascii("I: ") == CMD_I + [SPACE] && Ascii("N: ") == CMD_N + [SPACE] && Ascii("D: ") == CMD_D + [SPACE];
    assert Ascii("J: ") == CMD_J + [SPACE] && Ascii("O: ") == CMD_O + [SPACE];
    assert Ascii("A: ") == CMD_A + [SPACE] && Ascii("C: ") == CMD_C + [SPACE];
  }

  /** Ids are written without leading zeros, and one that does not fit 32 bits is not read. */
  lemma {:induction false} NumbersInWords(n: nat)
    ensures PrintNat(n)[0] == ZERO ==> n == 0
    ensures ParseU32(PrintNat(n)) == if n < 0x1_0000_0000 then Some(n) else None
    decreases n
  {
    DecimalPrinted(n);
    if n >= 10 {
      NumbersInWords(n / 10);
      DecimalPrinted(n / 10);
      assert PrintNat(n)[0] == PrintNat(n / 10)[0];
    }
  }

  // ----- what is rejected, and how -----

  /** The command words that ask for a message to be passed on. */
  predicate IsRelayWord(command: Text) {
    command == Ascii("O:") || command == Ascii("A:") || command == Ascii("C:")
  }

  lemma WordsApart(command: Text)
    ensures IsRelayWord(command) <==> command == CMD_O || command == CMD_A || command == CMD_C
    ensures command == Ascii("J:") <==> command == CMD_J
    ensures command == Ascii("S:") <==> command == CMD_S
  {
    assert Ascii("J:") == CMD_J && Ascii("S:") == CMD_S;
    assert Ascii("O:") == CMD_O && Ascii("A:") == CMD_A && Ascii("C:") == CMD_C;
  }

  /** A text that is no frame lacks its newline, or the space in front of it. */
  lemma RejectedUnframed(text: Text)
    ensures ParseRequest(text) == Err(NoNewline) <==> NEWLINE !in text
    ensures ParseRequest(text) == Err(NoSpace) <==>
              exists line, rest :: text == line + [NEWLINE] + rest && NEWLINE !in line && SPACE !in line
  {
    SplitParts(text, NEWLINE);
    if NEWLINE in text {
      var (line, rest) := SplitOnce(text, NEWLINE).value;
      SplitParts(line, SPACE);
      assert text == line + [NEWLINE] + rest;
    }
    forall line, rest | text == line + [NEWLINE] + rest && NEWLINE !in line && SPACE !in line
      ensures ParseRequest(text) == Err(NoSpace)
    {
      SplitJoined(line, NEWLINE, rest);
      SplitParts(line, SPACE);
    }
  }

  /** Exactly which frames are rejected, and with which error. */
  lemma RejectedFrames(command: Text, argument: Text, payload: Text)
    requires SPACE !in command && NEWLINE !in command && NEWLINE !in argument
    ensures var parsed, create, seal := ParseRequest(Frame(command, argument, payload)),
                                        command == Ascii("J:"), command == Ascii("S:");
            && (parsed == Err(InvalidCommandWord) <==> !create && !seal && !IsRelayWord(command))
            && (parsed == Err(UnexpectedPayload) <==> (create || seal) && payload != [])
            && (parsed == Err(ExpectedPayload) <==>
                  IsRelayWord(command) && ParseU32(argument).Some? && payload == [])
            && (parsed == Err(InvalidArgument) <==>
                  || (create && payload == [] && argument != [] && FromText(argument).Err?)
                  || (seal && payload == [] && argument != [])
                  || (IsRelayWord(command) && ParseU32(argument).None?))
            && parsed != Err(NoNewline) && parsed != Err(NoSpace)
  {
    ParseFrame(command, argument, payload);
    WordsApart(command);
  }

  /** A bad command and a bad argument have close codes of their own; all else is a bad format. */
  lemma RejectionCodes(e: ParseError)
    ensures CloseCodeFor(e) == InvalidCommand <==> e == InvalidCommandWord
    ensures CloseCodeFor(e) == InvalidDestination <==> e == InvalidArgument
    ensures CloseCodeFor(e) == InvalidFormat <==>
              e == NoNewline || e == NoSpace || e == UnexpectedPayload || e == ExpectedPayload
  {
  }
}
