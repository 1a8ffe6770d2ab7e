/**
 The parsers as they are written: a `strtok` that cuts its buffer in place and
 remembers where it stopped, and the token loops of `deSerializeRequest` and
 `deSerializeResponse`. Each is proved against the pure reading in Protocol.
 */
module Parsing {
  import opened Wrappers
  import opened Text
  import opened Protocol

  const NUL: char := 0 as char

  /** The C string that starts at the front of `s`. */
  function CString(s: seq<char>): (t: string)
    ensures |t| <= |s| && t == s[..|t|] && NUL !in t
    ensures |t| < |s| ==> s[|t|] == NUL
  {
    if s == [] || s[0] == NUL then [] else [s[0]] + CString(s[1..])
  }

  lemma {:induction false} CStringIs(s: seq<char>, n: nat)
    requires n < |s| && s[n] == NUL && NUL !in s[..n]
    ensures CString(s) == s[..n]
  {
    if n > 0 {
      assert s[0] == s[..n][0];
      assert s[1..][..n - 1] == s[..n][1..];
      CStringIs(s[1..], n - 1);
      assert s[..n] == [s[0]] + s[1..][..n - 1];
    }
  }

  /** One run of `strtok` over a private copy of a string. */
  class Tokenizer {
    const buf: array<char>
    var pos: nat

    ghost predicate Valid()
      reads this, buf
    {
      pos < buf.Length && buf[buf.Length - 1] == NUL
    }

    /** What is left to split. */
    ghost function Rest(): string
      requires Valid()
      reads this, buf
    {
      CString(buf[pos..])
    }

    /** `strdup` followed by the first `strtok` call's set-up. */
    constructor (text: string)
      requires NUL !in text
      ensures Valid() && fresh(buf) && Rest() == text
    {
      buf := new char[|text| + 1](i requires 0 <= i <= |text| => if i < |text| then text[i] else NUL);
      pos := 0;
      new;
      assert buf[0..][..|text|] == text;
      CStringIs(buf[0..], |text|);
    }

    /** The first position from `pos` on that does not hold the delimiter. */
    method Skip(d: char) returns (i: nat)
      requires Valid() && d != NUL
      ensures pos <= i < buf.Length && buf[i] != d
      ensures Tokens(Rest(), d) == Tokens(CString(buf[i..]), d)
    {
      i := pos;
      while buf[i] == d
        invariant pos <= i < buf.Length
        invariant Tokens(Rest(), d) == Tokens(CString(buf[i..]), d)
        decreases buf.Length - i
      {
        assert buf[i..][1..] == buf[i + 1..];
        i := i + 1;
      }
    }

    /** The end of the run that starts at `i`. */
    method RunEnd(d: char, i: nat) returns (j: nat)
      requires Valid() && i < buf.Length && buf[i] != d && buf[i] != NUL
      ensures i < j < buf.Length && (buf[j] == d || buf[j] == NUL)
      ensures NUL !in buf[i..j] && d !in buf[i..j]
    {
      j := i;
      while buf[j] != d && buf[j] != NUL
        invariant i <= j < buf.Length
        invariant j == i ==> buf[j] != d && buf[j] != NUL
        invariant NUL !in buf[i..j] && d !in buf[i..j]
        decreases buf.Length - j
      {
        j := j + 1;
      }
    }

    method Next(d: char) returns (token: Option<string>)
      requires Valid() && d != NUL
      modifies this, buf
      ensures Valid()
      ensures token.None? ==> Tokens(old(Rest()), d) == [] && Tokens(Rest(), d) == []
      ensures token.Some? ==> Tokens(old(Rest()), d) == [token.value] + Tokens(Rest(), d)
    {
      hide CString, Tokens;
      var i := Skip(d);
      if buf[i] == NUL {
        NothingLeft(buf[i..], d);
        pos := i;
        return None;
      }
      var j := RunEnd(d, i);
      token := Some(buf[i..j]);
      ghost var s := buf[i..];
      assert s[..j - i] == buf[i..j] && s[j - i..] == buf[j..];
      if buf[j] == d {
        assert s[j - i + 1..] == buf[j + 1..];
        CutAtDelimiter(s, j - i, d);
        CutAt(j);
      } else {
        CutAtEnd(s, j - i, d);
        pos := j;
      }
    }

    method CutAt(j: nat)
      requires Valid() && j + 1 < buf.Length
      modifies this, buf
      ensures Valid() && Rest() == old(CString(buf[j + 1..]))
    {
      ghost var after := buf[j + 1..];
      buf[j] := NUL;
      pos := j + 1;
      assert buf[pos..] == after;
    }
  }

  lemma {:induction false} CStringSplit(s: seq<char>, n: nat)
    requires n <= |s| && NUL !in s[..n]
    ensures CString(s) == s[..n] + CString(s[n..])
  {
    if n == 0 {
      assert s[0..] == s;
    } else {
      var tail := s[1..];
      assert s[0] == s[..n][0] && s[0] != NUL;
      assert tail[..n - 1] == s[..n][1..] && tail[n - 1..] == s[n..];
      CStringSplit(tail, n - 1);
      PrefixCons(s, n, CString(s[n..]));
    }
  }

  lemma PrefixCons(s: seq<char>, n: nat, rest: seq<char>)
    requires 0 < n <= |s|
    ensures [s[0]] + (s[1..][..n - 1] + rest) == s[..n] + rest
  {
  }

  /** A run that ends at a delimiter is the next token, and so is one that ends the string. */
  lemma CutAtDelimiter(s: seq<char>, n: nat, d: char)
    requires 0 < n < |s| && NUL !in s[..n] && d !in s[..n] && s[n] == d && d != NUL
    ensures Tokens(CString(s), d) == [s[..n]] + Tokens(CString(s[n + 1..]), d)
  {
    var run, rest := s[..n], CString(s[n + 1..]);
    assert s[n..][1..] == s[n + 1..];
    CStringSplit(s, n);
    assert CString(s[n..]) == [d] + rest;
    assert run + ([d] + rest) == run + [d] + rest;
    TokensCons(run, rest, d);
  }

  lemma CutAtEnd(s: seq<char>, n: nat, d: char)
    requires 0 < n < |s| && NUL !in s[..n] && d !in s[..n] && s[n] == NUL
    ensures Tokens(CString(s), d) == [s[..n]] && Tokens(CString(s[n..]), d) == []
  {
    CStringIs(s, n);
    TokensSingle(s[..n], d);
  }

  lemma NothingLeft(s: seq<char>, d: char)
    requires s != [] && s[0] == NUL
    ensures Tokens(CString(s), d) == []
  {
  }

  /** `deSerializeRequest`: the loop stops reading after the third token. */
  method DeSerializeRequest(buffer: Option<string>) returns (req: Option<Request>)
    requires buffer.Some? ==> NUL !in buffer.value
    ensures req == if buffer.None? then None else ParseRequest(buffer.value)
  {
    hide Tokens, CString, Strtol, CommandOf;
    if buffer.None? {
      return None;
    }
    ghost var all := Tokens(buffer.value, ',');
    var command, dataLen, path := UNKNOWN, 0, "";
    var copy := new Tokenizer(buffer.value);
    var token := copy.Next(',');
    var i := 0;
    while token.Some?
      invariant copy.Valid() && fresh(copy) && fresh(copy.buf)
      invariant 0 <= i <= 3 && i <= |all|
      invariant token.Some? ==> all[i..] == [token.value] + Tokens(copy.Rest(), ',')
      invariant token.None? ==> i == |all|
      invariant i > 0 ==> command == CommandOf(all[0])
      invariant i > 1 ==> dataLen == Strtol(all[1])
      invariant i > 2 ==> path == all[2]
      decreases 3 - i
    {
      assert token.value == all[i..][0];
      if i == 0 {
        command := StrToCommandType(token.value);
      } else if i == 1 {
        dataLen := Strtol(token.value);
      } else if i == 2 {
        path := token.value;
      } else {
        break;
      }
      assert all[i + 1..] == all[i..][1..];
      token := copy.Next(',');
      i := i + 1;
    }
    if i >= 3 {
      req := CreateRequestFromParts(command, path, dataLen);
    } else {
      req := None;
    }
  }

  /** `deSerializeResponse`: reads every token, rejects a status that is not a bit. */
  method DeSerializeResponse(buffer: Option<string>) returns (res: Option<Response>)
    requires buffer.Some? ==> NUL !in buffer.value
    ensures res == if buffer.None? then None else ParseResponse(buffer.value)
  {
    hide Tokens, CString, Strtol, CommandOf;
    if buffer.None? {
      return None;
    }
    ghost var all := Tokens(buffer.value, ',');
    var success, dataLen, message := false, 0, "";
    var copy := new Tokenizer(buffer.value);
    var token := copy.Next(',');
    var i := 0;
    while token.Some?
      invariant copy.Valid() && fresh(copy) && fresh(copy.buf)
      invariant 0 <= i <= |all|
      invariant token.Some? ==> all[i..] == [token.value] + Tokens(copy.Rest(), ',')
      invariant token.None? ==> i == |all|
      invariant i > 0 ==> all[0] in ["0", "1"] && success == (all[0] == "1")
      invariant i > 1 ==> dataLen == Strtol(all[1])
      invariant i > 2 ==> message == all[2]
      decreases |all| - i
    {
      assert token.value == all[i..][0];
      if i == 0 {
        if token.value == "0" {
          success := false;
        } else if token.value == "1" {
          success := true;
        } else {
          return None;
        }
      } else if i == 1 {
        dataLen := Strtol(token.value);
      } else if i == 2 {
        message := token.value;
      }
      assert all[i + 1..] == all[i..][1..];
      token := copy.Next(',');
      i := i + 1;
    }
    if i < 3 {
      res := None;
    } else {
      res := CreateResponse(success, Some(message), dataLen);
    }
  }
}
