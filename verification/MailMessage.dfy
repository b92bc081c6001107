/** The SMTP message that is printed for an email, and a reader of messages that inverts it. */
module MailMessage {
  import opened Wrappers

  datatype Email = Email(to: string, subject: string, htmlBody: string)

  const CRLF := "\r\n"

  /** `strings.Join`. */
  function Join(lines: seq<string>, separator: string): string {
    if |lines| == 0 then ""
    else if |lines| == 1 then lines[0]
    else lines[0] + separator + Join(lines[1..], separator)
  }

  function HeaderLines(from: string, email: Email): seq<string> {
    [ "From: " + from,
      "To: " + email.to,
      "Subject: " + email.subject,
      "MIME-Version: 1.0",
      "Content-Type: text/html; charset=\"UTF-8\"" ]
  }

  function BuildMessage(from: string, email: Email): string {
    Join(HeaderLines(from, email), CRLF) + CRLF + CRLF + email.htmlBody
  }

  /** The index of the first line end in `s`, or `|s|` if there is none. */
  function LineEnd(s: string): (k: nat)
    ensures k <= |s|
    ensures k < |s| ==> k + 2 <= |s| && s[k] == '\r' && s[k + 1] == '\n'
    ensures NoLineEnd(s[..k])
  {
    if |s| < 2 then |s|
    else if s[0] == '\r' && s[1] == '\n' then 0
    else
      var k := LineEnd(s[1..]);
      assert s[..k + 1] == [s[0]] + s[1..][..k];
      k + 1
  }

  predicate NoLineEnd(s: string) {
    forall i :: 0 <= i < |s| - 1 ==> !(s[i] == '\r' && s[i + 1] == '\n')
  }

  /** Reads a message as section 2.1 of RFC 5322 describes it: header lines up to the first empty
      line, then the body. */
  function ReadMessage(s: string): Option<(seq<string>, string)>
    decreases |s|
  {
    var k := LineEnd(s);
    if k == |s| then None
    else if k == 0 then Some(([], s[2..]))
    else
      match ReadMessage(s[k + 2..])
      case None => None
      case Some((lines, body)) => Some(([s[..k]] + lines, body))
  }

  lemma {:induction false} LineEndOfLine(line: string, rest: string)
    requires NoLineEnd(line)
    ensures LineEnd(line + CRLF + rest) == |line|
    decreases |line|
  {
    var s := line + CRLF + rest;
    if line == "" {
      assert s[0] == '\r' && s[1] == '\n';
    } else {
      assert s[1..] == line[1..] + CRLF + rest;
      assert NoLineEnd(line[1..]);
      LineEndOfLine(line[1..], rest);
      assert s[0] == line[0];
      assert s[1] == if |line| > 1 then line[1] else '\r';
    }
  }

  /** One header line is read off the front of a message. */
  lemma ReadHeaderLine(line: string, rest: string)
    requires line != "" && NoLineEnd(line)
    ensures ReadMessage(line + CRLF + rest) ==
      match ReadMessage(rest)
      case None => None
      case Some((lines, body)) => Some(([line] + lines, body))
  {
    var s := line + CRLF + rest;
    LineEndOfLine(line, rest);
    assert s[..|line|] == line && s[|line| + 2..] == rest;
  }

  /** The lines one after the other, each with its line end, in front of `tail`. */
  function Printed(lines: seq<string>, tail: string): string {
    if lines == [] then tail else lines[0] + CRLF + Printed(lines[1..], tail)
  }

  lemma Regroup(a: string, b: string, c: string, d: string)
    ensures a + b + c + d == a + b + (c + d)
  {
  }

  lemma {:induction false} JoinedIsPrinted(lines: seq<string>, tail: string)
    requires |lines| > 0
    ensures Join(lines, CRLF) + (CRLF + tail) == Printed(lines, tail)
  {
    if |lines| == 1 {
      assert Printed(lines, tail) == lines[0] + CRLF + Printed([], tail) by {
        assert lines[1..] == [];
      }
      assert lines[0] + (CRLF + tail) == lines[0] + CRLF + tail;
    } else {
      JoinedIsPrinted(lines[1..], tail);
      var joined := Join(lines[1..], CRLF);
      Regroup(lines[0], CRLF, joined, CRLF + tail);
    }
  }

  lemma {:induction false} ReadPrinted(lines: seq<string>, body: string)
    requires forall i :: 0 <= i < |lines| ==> lines[i] != "" && NoLineEnd(lines[i])
    ensures ReadMessage(Printed(lines, CRLF + body)) == Some((lines, body))
  {
    if lines == [] {
      var rest := CRLF + body;
      assert LineEnd(rest) == 0 && rest[2..] == body;
    } else {
      ReadPrinted(lines[1..], body);
      var rest := Printed(lines[1..], CRLF + body);
      assert Printed(lines, CRLF + body) == lines[0] + CRLF + rest;
      ReadHeaderLine(lines[0], rest);
      assert [lines[0]] + lines[1..] == lines;
    }
  }

  lemma ReadHeaders(from: string, email: Email)
    requires NoLineEnd(from) && NoLineEnd(email.to) && NoLineEnd(email.subject)
    ensures ReadMessage(BuildMessage(from, email)) == Some((HeaderLines(from, email), email.htmlBody))
  {
    var lines := HeaderLines(from, email);
    PrefixKeepsLineEnds("From: ", from);
    PrefixKeepsLineEnds("To: ", email.to);
    PrefixKeepsLineEnds("Subject: ", email.subject);
    ReadPrinted(lines, email.htmlBody);
    JoinedIsPrinted(lines, CRLF + email.htmlBody);
    MessageIsPrinted(Join(lines, CRLF), email.htmlBody);
  }

  lemma MessageIsPrinted(joined: string, body: string)
    ensures joined + CRLF + CRLF + body == joined + (CRLF + (CRLF + body))
  {
  }

  lemma {:induction false} ReadLinesHaveNoLineEnd(s: string)
    ensures ReadMessage(s).Some? ==> forall i :: 0 <= i < |ReadMessage(s).value.0| ==> NoLineEnd(ReadMessage(s).value.0[i])
    decreases |s|
  {
    var k := LineEnd(s);
    if 0 < k < |s| {
      ReadLinesHaveNoLineEnd(s[k + 2..]);
    }
  }

  /** Reading a built message back yields the five header lines in order and the body byte for byte,
      exactly when no header value contains a line end. */
  lemma MessageRoundTrip(from: string, email: Email)
    ensures
      ReadMessage(BuildMessage(from, email)) ==
        Some(([ "From: " + from,
                "To: " + email.to,
                "Subject: " + email.subject,
                "MIME-Version: 1.0",
                "Content-Type: text/html; charset=\"UTF-8\"" ], email.htmlBody))
      <==> NoLineEnd(from) && NoLineEnd(email.to) && NoLineEnd(email.subject)
  {
    if NoLineEnd(from) && NoLineEnd(email.to) && NoLineEnd(email.subject) {
      ReadHeaders(from, email);
    }
    var lines := HeaderLines(from, email);
    if ReadMessage(BuildMessage(from, email)) == Some((lines, email.htmlBody)) {
      ReadLinesHaveNoLineEnd(BuildMessage(from, email));
      assert NoLineEnd(lines[0]) && NoLineEnd(lines[1]) && NoLineEnd(lines[2]);
      PrefixKeepsLineEnds("From: ", from);
      PrefixKeepsLineEnds("To: ", email.to);
      PrefixKeepsLineEnds("Subject: ", email.subject);
    }
  }

  /** The value of the first header field with this name. */
  function Field(lines: seq<string>, name: string): Option<string> {
    if lines == [] then None
    else if name + ": " <= lines[0] then Some(lines[0][|name| + 2..])
    else Field(lines[1..], name)
  }

  /** A field is found behind lines that begin with another letter than its name. */
  lemma {:induction false} FieldAt(lines: seq<string>, k: nat, name: string, value: string)
    requires k < |lines| && name != "" && lines[k] == name + ": " + value
    requires forall j :: 0 <= j < k ==> lines[j] != "" && lines[j][0] != name[0]
    ensures Field(lines, name) == Some(value)
    decreases k
  {
    var line := lines[0];
    assert (name + ": ")[0] == name[0];
    if k == 0 {
      assert line[..|name| + 2] == name + ": " && line[|name| + 2..] == value;
    } else {
      assert line[0] != name[0];
      FieldAt(lines[1..], k - 1, name, value);
    }
  }

  /** A reader that looks the fields up by name finds the recipient, the subject and the rest of the
      headers, and the body. */
  lemma FieldsAreReadBack(from: string, email: Email)
    requires NoLineEnd(from) && NoLineEnd(email.to) && NoLineEnd(email.subject)
    ensures
      match ReadMessage(BuildMessage(from, email))
      case None => false
      case Some((lines, body)) =>
        && |lines| == 5 && body == email.htmlBody
        && Field(lines, "From") == Some(from)
        && Field(lines, "To") == Some(email.to)
        && Field(lines, "Subject") == Some(email.subject)
        && Field(lines, "MIME-Version") == Some("1.0")
        && Field(lines, "Content-Type") == Some("text/html; charset=\"UTF-8\"")
  {
    MessageRoundTrip(from, email);
    var lines := ReadMessage(BuildMessage(from, email)).value.0;
    assert lines[0][0] == 'F' && lines[1][0] == 'T' && lines[2][0] == 'S' && lines[3][0] == 'M';
    FieldAt(lines, 0, "From", from);
    FieldAt(lines, 1, "To", email.to);
    FieldAt(lines, 2, "Subject", email.subject);
    VersionIsReadBack(lines);
    TypeIsReadBack(lines);
  }

  lemma VersionIsReadBack(lines: seq<string>)
    requires |lines| == 5 && forall j :: 0 <= j < 3 ==> lines[j] != "" && lines[j][0] != 'M'
    requires lines[3] == "MIME-Version: 1.0"
    ensures Field(lines, "MIME-Version") == Some("1.0")
  {
    assert "MIME-Version: 1.0" == "MIME-Version" + ": " + "1.0";
    FieldAt(lines, 3, "MIME-Version", "1.0");
  }

  lemma TypeIsReadBack(lines: seq<string>)
    requires |lines| == 5 && forall j :: 0 <= j < 4 ==> lines[j] != "" && lines[j][0] != 'C'
    requires lines[4] == "Content-Type: text/html; charset=\"UTF-8\""
    ensures Field(lines, "Content-Type") == Some("text/html; charset=\"UTF-8\"")
  {
    assert "Content-Type: text/html; charset=\"UTF-8\"" == "Content-Type" + ": " + "text/html; charset=\"UTF-8\"";
    FieldAt(lines, 4, "Content-Type", "text/html; charset=\"UTF-8\"");
  }

  lemma PrefixKeepsLineEnds(prefix: string, s: string)
    requires |prefix| > 0 && prefix[|prefix| - 1] == ' ' && NoLineEnd(prefix)
    ensures NoLineEnd(prefix + s) <==> NoLineEnd(s)
  {
    var t := prefix + s;
    assert forall i :: 0 <= i < |s| ==> t[|prefix| + i] == s[i];
    if NoLineEnd(t) {
      forall i | 0 <= i < |s| - 1
        ensures !(s[i] == '\r' && s[i + 1] == '\n')
      {
        assert !(t[|prefix| + i] == '\r' && t[|prefix| + i + 1] == '\n');
      }
    }
  }

  /** Messages of one sender with headers free of line ends are equal only for equal emails. */
  lemma MessagesAreDistinct(from: string, a: Email, b: Email)
    requires NoLineEnd(from)
    requires NoLineEnd(a.to) && NoLineEnd(a.subject) && NoLineEnd(b.to) && NoLineEnd(b.subject)
    requires BuildMessage(from, a) == BuildMessage(from, b)
    ensures a == b
  {
    FieldsAreReadBack(from, a);
    FieldsAreReadBack(from, b);
  }
}
