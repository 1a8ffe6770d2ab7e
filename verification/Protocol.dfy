/**
 The wire format: requests `command,data_len,remote_path` and responses
 `status,data_len,message`, their printers, their `strtok`-driven parsers, and
 the buffer lengths the printers compute.
 */
module Protocol {
  import opened Wrappers
  import opened Text

  datatype Command = WRITE | GET | RM | LS | UNKNOWN

  datatype Request = Request(command: Command, path: string, dataLen: int)

  datatype Response = Response(status: bool, message: string, dataLen: int)

  // ---------------------------------------------------------------- commands

  const COMMANDS: seq<Command> := [WRITE, GET, RM, LS]

  function CommandString(c: Command): string
    requires c != UNKNOWN
  {
    match c
    case WRITE => "WRITE"
    case GET => "GET"
    case RM => "RM"
    case LS => "LS"
  }

  /** A command is written by name or by its number in the enum. */
  function CommandOf(s: string): Command {
    if s == "WRITE" || s == "0" then WRITE
    else if s == "GET" || s == "1" then GET
    else if s == "RM" || s == "2" then RM
    else if s == "LS" || s == "3" then LS
    else UNKNOWN
  }

  /** A command is denoted by its name and by the decimal of its place in the enum, and by nothing else. */
  lemma CommandIndex(s: string)
    ensures forall i :: 0 <= i < 4 ==>
              (CommandOf(s) == COMMANDS[i] <==> s == CommandString(COMMANDS[i]) || s == Decimal(i))
    ensures COMMANDS == [WRITE, GET, RM, LS]
  {
    assert Decimal(0) == "0" && Decimal(1) == "1" && Decimal(2) == "2" && Decimal(3) == "3";
    assert COMMANDS[0] == WRITE && COMMANDS[1] == GET && COMMANDS[2] == RM && COMMANDS[3] == LS;
    forall i | 0 <= i < 4
      ensures CommandOf(s) == COMMANDS[i] <==> s == CommandString(COMMANDS[i]) || s == Decimal(i)
    {
      if i == 0 {
      } else if i == 1 {
      } else if i == 2 {
      } else {
      }
    }
  }

  method StrToCommandType(str: string) returns (c: Command)
    ensures c == CommandOf(str)
    ensures c == WRITE <==> str == "WRITE" || str == "0"
    ensures c == GET <==> str == "GET" || str == "1"
    ensures c == RM <==> str == "RM" || str == "2"
    ensures c == LS <==> str == "LS" || str == "3"
    ensures forall i :: 0 <= i < 4 ==> (c == COMMANDS[i] <==> str == CommandString(COMMANDS[i]) || str == Decimal(i))
  {
    CommandIndex(str);
    var i := 0;
    while i < |COMMANDS|
      invariant 0 <= i <= |COMMANDS|
      invariant forall j :: 0 <= j < i ==> str != CommandString(COMMANDS[j])
    {
      if CommandString(COMMANDS[i]) == str {
        return COMMANDS[i];
      }
      i := i + 1;
    }
    assert COMMANDS[0] == WRITE && COMMANDS[1] == GET && COMMANDS[2] == RM && COMMANDS[3] == LS;
    if str == "0" {
      return WRITE;
    } else if str == "1" {
      return GET;
    } else if str == "2" {
      return RM;
    } else if str == "3" {
      return LS;
    }
    return UNKNOWN;
  }

  // ---------------------------------------------------------------- requests

  /** What `createRequestFromParts` accepts; every request the server acts on is one. */
  predicate ValidRequest(r: Request) {
    r.command != UNKNOWN && r.path != "" && r.dataLen >= 0
  }

  function CreateRequestFromParts(command: Command, path: string, dataLen: int): (r: Option<Request>)
    ensures r.Some? ==> ValidRequest(r.value)
  {
    if command == UNKNOWN || path == "" || dataLen < 0 then None
    else Some(Request(command, path, dataLen))
  }

  function PrintRequest(r: Request): string
    requires ValidRequest(r)
  {
    CommandString(r.command) + "," + Decimal(r.dataLen) + "," + r.path
  }

  /** The pure reading of a request: its first three tokens decide, the others are ignored. */
  function ParseRequest(s: string): (r: Option<Request>)
    ensures r.Some? ==> ValidRequest(r.value) && ',' !in r.value.path && r.value.dataLen <= LONG_MAX
  {
    var ts := Tokens(s, ',');
    if |ts| < 3 then None
    else CreateRequestFromParts(CommandOf(ts[0]), ts[2], Strtol(ts[1]))
  }

  /**
   Reading succeeds exactly when there are three tokens, the first is one of the eight command
   words and the second does not read as a negative number; the tokens then are the request.
   */
  lemma RequestReads(s: string)
    ensures var ts := Tokens(s, ',');
      ParseRequest(s).Some?
      <==> |ts| >= 3 && ts[0] in {"WRITE", "GET", "RM", "LS", "0", "1", "2", "3"} && Strtol(ts[1]) >= 0
    ensures ParseRequest(s).Some? ==>
      var ts, r := Tokens(s, ','), ParseRequest(s).value;
      && (r.command == WRITE <==> ts[0] in {"WRITE", "0"})
      && (r.command == GET <==> ts[0] in {"GET", "1"})
      && (r.command == RM <==> ts[0] in {"RM", "2"})
      && (r.command == LS <==> ts[0] in {"LS", "3"})
      && r.dataLen == Strtol(ts[1]) && r.path == ts[2]
  {
    hide Tokens, Strtol;
    assert |Tokens(s, ',')| >= 3 ==> Tokens(s, ',')[2] != "";
  }

  /** For instance, an unknown command or a negative length is not read. */
  lemma Unread(path: string)
    requires path != "" && ',' !in path
    ensures ParseRequest("DELETE,0," + path) == None && ParseRequest("RM,-1," + path) == None
  {
    hide Tokens, Strtol;
    TokensSingle(path, ',');
    assert "DELETE,0," + path == "DELETE" + [','] + ("0" + [','] + path);
    assert "RM,-1," + path == "RM" + [','] + ("-1" + [','] + path);
    TokensCons("DELETE", "0" + [','] + path, ',');
    TokensCons("0", path, ',');
    TokensCons("RM", "-1" + [','] + path, ',');
    TokensCons("-1", path, ',');
    assert "" + ("-" + "1" + "") == "-1";
    StrtolReads("", "-", "1", "");
    assert DigitsValue("1"[..0]) == 0 && DigitsValue("1") == 1;
    RequestReads("DELETE,0," + path);
    RequestReads("RM,-1," + path);
  }

  /** The printed text itself. */
  lemma PrintedText(r: Request)
    requires ValidRequest(r)
    ensures r.command == WRITE ==> PrintRequest(r) == "WRITE," + Decimal(r.dataLen) + "," + r.path
    ensures r.command == GET ==> PrintRequest(r) == "GET," + Decimal(r.dataLen) + "," + r.path
    ensures r.command == RM ==> PrintRequest(r) == "RM," + Decimal(r.dataLen) + "," + r.path
    ensures r.command == LS ==> PrintRequest(r) == "LS," + Decimal(r.dataLen) + "," + r.path
  {
    assert "WRITE" + "," == "WRITE," && "GET" + "," == "GET," && "RM" + "," == "RM," && "LS" + "," == "LS,";
  }

  lemma DecimalIsToken(n: nat)
    ensures Decimal(n) != "" && ',' !in Decimal(n)
  {
    var s := Decimal(n);
    forall i | 0 <= i < |s|
      ensures s[i] != ','
    {
      assert IsDigit(s[i]);
    }
  }

  lemma CommandStringIsToken(c: Command)
    requires c != UNKNOWN
    ensures CommandString(c) != "" && ',' !in CommandString(c) && CommandOf(CommandString(c)) == c
  {
  }

  lemma TokensOfTriple(a: string, n: nat, c: string)
    requires a != "" && ',' !in a
    ensures Tokens(a + "," + Decimal(n) + "," + c, ',') == [a, Decimal(n)] + Tokens(c, ',')
  {
    var b := Decimal(n);
    DecimalIsToken(n);
    assert a + "," + b + "," + c == a + [','] + (b + [','] + c);
    TokensCons(a, b + [','] + c, ',');
    TokensCons(b, c, ',');
  }

  /** Printing then parsing a request gives it back exactly when its path has no comma. */
  lemma RequestRoundTrip(r: Request)
    requires ValidRequest(r) && r.dataLen <= LONG_MAX
    ensures ParseRequest(PrintRequest(r)) == Some(r) <==> ',' !in r.path
  {
    hide Decimal, Strtol, Tokens, CommandOf, CommandString;
    CommandStringIsToken(r.command);
    TokensOfTriple(CommandString(r.command), r.dataLen, r.path);
    StrtolReadsDecimal(r.dataLen);
    if ',' !in r.path {
      TokensSingle(r.path, ',');
    }
  }

  /** A text that already has three tokens is read the same whatever follows it after a comma. */
  lemma RequestIgnoresTail(s: string, rest: string)
    requires |Tokens(s, ',')| >= 3
    ensures ParseRequest(s + "," + rest) == ParseRequest(s)
  {
    hide Tokens, CommandOf, Strtol;
    TokensConcat(s, rest, ',');
    assert s + "," + rest == s + [','] + rest;
  }

  /** And commas before the path's end cut it: with a comma the server works on another path. */
  lemma CommaCutsPath(command: Command, path: string, rest: string, n: nat)
    requires command != UNKNOWN && path != "" && ',' !in path && n <= LONG_MAX
    ensures ParseRequest(PrintRequest(Request(command, path + "," + rest, n))) == Some(Request(command, path, n))
  {
    hide Decimal, Strtol, Tokens, CommandOf, CommandString;
    var s := PrintRequest(Request(command, path, n));
    RequestRoundTrip(Request(command, path, n));
    assert PrintRequest(Request(command, path + "," + rest, n)) == s + "," + rest;
    CommandStringIsToken(command);
    TokensOfTriple(CommandString(command), n, path);
    TokensSingle(path, ',');
    RequestIgnoresTail(s, rest);
  }

  // ---------------------------------------------------------------- responses

  function Normalise(message: Option<string>): string {
    if message.None? || message.value == "" then "NULL" else message.value
  }

  /** A response never has an empty message; a negative length gives no response at all. */
  function CreateResponse(status: bool, message: Option<string>, dataLen: int): Option<Response> {
    if dataLen < 0 then None else Some(Response(status, Normalise(message), dataLen))
  }

  function PrintResponse(r: Response): string
    requires r.dataLen >= 0
  {
    (if r.status then "1" else "0") + "," + Decimal(r.dataLen) + "," + r.message
  }

  function ParseResponse(s: string): Option<Response> {
    var ts := Tokens(s, ',');
    if |ts| < 3 || (ts[0] != "0" && ts[0] != "1") then None
    else CreateResponse(ts[0] == "1", Some(ts[2]), Strtol(ts[1]))
  }

  /** Parsing a printed response gives back what `createResponse` built, exactly when its message has no comma. */
  lemma ResponseRoundTrip(status: bool, message: Option<string>, dataLen: int)
    requires 0 <= dataLen <= LONG_MAX
    ensures CreateResponse(status, message, dataLen).Some?
    ensures var r := CreateResponse(status, message, dataLen).value;
            (ParseResponse(PrintResponse(r)) == Some(r) <==> ',' !in Normalise(message))
  {
    hide Decimal, Strtol, Tokens;
    var r := CreateResponse(status, message, dataLen).value;
    TokensOfTriple(if r.status then "1" else "0", dataLen, r.message);
    StrtolReadsDecimal(dataLen);
    if ',' !in r.message {
      TokensSingle(r.message, ',');
    }
  }

  /** A client reads the message that was given, and the word NULL for a missing or empty one. */
  lemma MessageArrives(status: bool, message: Option<string>, dataLen: int)
    requires 0 <= dataLen <= LONG_MAX && (message.Some? ==> ',' !in message.value)
    ensures CreateResponse(status, message, dataLen).Some?
    ensures var r := ParseResponse(PrintResponse(CreateResponse(status, message, dataLen).value));
      r == Some(Response(status, if message.Some? && |message.value| > 0 then message.value else "NULL", dataLen))
  {
    hide Tokens, Decimal, Strtol;
    ResponseRoundTrip(status, message, dataLen);
  }

  /** A negative length gives no response. */
  lemma NegativeLength(status: bool, message: Option<string>, dataLen: int)
    ensures CreateResponse(status, message, dataLen) == None <==> dataLen < 0
  {
  }

  /** Reading a response succeeds exactly when there are three tokens, a 0 or 1 first, no negative length second. */
  lemma ResponseReads(s: string)
    ensures var ts := Tokens(s, ',');
      ParseResponse(s).Some? <==> |ts| >= 3 && ts[0] in {"0", "1"} && Strtol(ts[1]) >= 0
    ensures ParseResponse(s).Some? ==>
      var ts := Tokens(s, ',');
      ParseResponse(s).value == Response(ts[0] == "1", ts[2], Strtol(ts[1]))
  {
    hide Tokens, Strtol;
    assert |Tokens(s, ',')| >= 3 ==> Tokens(s, ',')[2] != "";
  }

  /** Whatever text a response was parsed from, printing and parsing it again changes nothing. */
  lemma ResponseIdempotent(s: string)
    requires ParseResponse(s).Some?
    ensures var r := ParseResponse(s).value;
            0 <= r.dataLen <= LONG_MAX && ParseResponse(PrintResponse(r)) == Some(r)
  {
    var r := ParseResponse(s).value;
    assert ',' !in r.message;
    ResponseRoundTrip(r.status, Some(r.message), r.dataLen);
  }

  // ---------------------------------------------------------------- buffer lengths

  /** `k` is the ceiling of the exact base-10 logarithm of `n`. */
  predicate IsCeilLog10(n: nat, k: nat) {
    n <= Pow10(k) && (k > 0 ==> Pow10(k - 1) < n)
  }

  function CeilLog10(n: nat): (k: nat)
    requires n > 0
    ensures IsCeilLog10(n, k)
  {
    if n == 1 then 0 else
      var k := CeilLog10((n + 9) / 10);
      assert Pow10(k + 1) == 10 * Pow10(k);
      assert k > 0 ==> Pow10(k) == 10 * Pow10(k - 1);
      k + 1
  }

  ghost predicate IsPowerOfTen(n: nat) { exists k: nat :: n == Pow10(k) }

  lemma {:induction false} Pow10Grows(j: nat, k: nat)
    requires j < k
    ensures Pow10(j) < Pow10(k)
    decreases k
  {
    assert Pow10(k) == 10 * Pow10(k - 1);
    if j < k - 1 {
      Pow10Grows(j, k - 1);
    }
  }

  /** The logarithm is the number of printed digits, except at the powers of ten, where it is one less. */
  lemma {:induction false} CeilLog10IsDigitCount(n: nat)
    requires n > 0
    ensures |Decimal(n)| == CeilLog10(n) + (if IsPowerOfTen(n) then 1 else 0)
  {
    var k := CeilLog10(n);
    if n == Pow10(k) {
      DecimalLength(n, k + 1);
      assert Pow10(k + 1) == 10 * Pow10(k);
      if k >= 1 {
        DecimalLength(n, k);
      }
    } else {
      if IsPowerOfTen(n) {
        var j: nat :| n == Pow10(j);
        if j < k {
          Pow10BelowCeil(n, j, k);
        } else {
          Pow10Grows(k, j);
        }
        assert false;
      }
      assert k != 0;
      DecimalLength(n, k);
      if k >= 2 {
        DecimalLength(n, k - 1);
      }
    }
  }

  lemma Pow10BelowCeil(n: nat, j: nat, k: nat)
    requires IsCeilLog10(n, k) && j < k
    ensures Pow10(j) < n
  {
    if j < k - 1 {
      Pow10Grows(j, k - 1);
    }
  }

  function NumDigits(n: nat): nat {
    if n == 0 then 1 else CeilLog10(n)
  }

  /** The bytes `serializeRequest` and `serializeResponse` allocate. */
  function RequestBufferLen(r: Request): nat
    requires ValidRequest(r)
  {
    |CommandString(r.command)| + |r.path| + NumDigits(r.dataLen) + 3
  }

  function ResponseBufferLen(r: Response): nat
    requires r.dataLen >= 0
  {
    |r.message| + NumDigits(r.dataLen) + 4
  }

  /** The allocation is the printed text and its terminator, exactly off the powers of ten. */
  lemma RequestBufferFits(r: Request)
    requires ValidRequest(r)
    ensures RequestBufferLen(r) == |PrintRequest(r)| + 1 <==> !IsPowerOfTen(r.dataLen)
    ensures IsPowerOfTen(r.dataLen) ==> RequestBufferLen(r) == |PrintRequest(r)|
  {
    if r.dataLen > 0 {
      CeilLog10IsDigitCount(r.dataLen);
    }
  }

  lemma ResponseBufferFits(r: Response)
    requires r.dataLen >= 0
    ensures ResponseBufferLen(r) == |PrintResponse(r)| + 1 <==> !IsPowerOfTen(r.dataLen)
    ensures IsPowerOfTen(r.dataLen) ==> ResponseBufferLen(r) == |PrintResponse(r)|
  {
    if r.dataLen > 0 {
      CeilLog10IsDigitCount(r.dataLen);
    }
  }
}
