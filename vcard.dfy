/** pdf_service.go: the vCard 3.0 text (RFC 2426) that the contact PDF's QR
    code carries. The builder writes '\n' line breaks, does not escape ';' or
    ',' in values, and leaves out the EMAIL, TEL and ORG lines when their
    value is empty. The REV timestamp (time.Now() formatted as
    "20060102T150405Z") is a parameter. */
module PdfService {
  import opened Base
  import opened Contacts

  predicate IsPhoneChar(c: char) {
    IsAsciiDigit(c) || c == '+'
  }

  /** The strings.Map in generateVCardContent: keeps the digits and '+' of the
      phone number, in their order, and drops every other character. */
  function CleanPhone(phone: string): (clean: string)
    ensures |clean| <= |phone|
    ensures forall i :: 0 <= i < |clean| ==> IsPhoneChar(clean[i])
    ensures (forall i :: 0 <= i < |phone| ==> IsPhoneChar(phone[i])) ==> clean == phone
  {
    if phone == [] then []
    else (if IsPhoneChar(phone[0]) then [phone[0]] else []) + CleanPhone(phone[1..])
  }

  /** Filtering a concatenation filters each part: the filter keeps order. */
  lemma {:induction false} CleanPhoneAppend(a: string, b: string)
    ensures CleanPhone(a + b) == CleanPhone(a) + CleanPhone(b)
  {
    if a == [] {
      assert a + b == b;
    } else {
      var head := if IsPhoneChar(a[0]) then [a[0]] else [];
      assert (a + b)[0] == a[0] && (a + b)[1..] == a[1..] + b;
      CleanPhoneAppend(a[1..], b);
      calc {
        CleanPhone(a + b);
        head + CleanPhone(a[1..] + b);
        head + (CleanPhone(a[1..]) + CleanPhone(b));
        (head + CleanPhone(a[1..])) + CleanPhone(b);
        CleanPhone(a) + CleanPhone(b);
      }
    }
  }

  /** Cleaning a cleaned number changes nothing. */
  lemma CleanPhoneIdempotent(phone: string)
    ensures CleanPhone(CleanPhone(phone)) == CleanPhone(phone)
  {
  }

  /** Every kept digit or '+' is dropped from nowhere: the number of times a
      phone character occurs is the same before and after cleaning. */
  lemma {:induction false} CleanPhoneKeepsPhoneChars(phone: string, c: char)
    requires IsPhoneChar(c)
    ensures multiset(CleanPhone(phone))[c] == multiset(phone)[c]
  {
    if phone != [] {
      CleanPhoneKeepsPhoneChars(phone[1..], c);
      assert phone == [phone[0]] + phone[1..];
    }
  }

  /** One content line of the card: `name:value`. */
  datatype Property = Property(name: string, value: string)

  function Render(p: Property): string {
    p.name + ":" + p.value
  }

  /** The properties of the card, in order. */
  function VCardProperties(firstName: string, lastName: string, email: string, phone: string,
                           companyName: string, rev: string): seq<Property>
  {
    HeadProperties(firstName, lastName) + OptionalProperties(email, phone, companyName)
    + [Property("REV", rev)] + [Property("END", "VCARD")]
  }

  /** BEGIN, VERSION, FN and N. */
  function HeadProperties(firstName: string, lastName: string): seq<Property> {
    [Property("BEGIN", "VCARD"), Property("VERSION", "3.0"),
     Property("FN", firstName + " " + lastName), Property("N", lastName + ";" + firstName + ";;;")]
  }

  /** EMAIL, TEL and ORG, each only when its input is non-empty. */
  function OptionalProperties(email: string, phone: string, companyName: string): seq<Property> {
    EmailProperty(email) + PhoneProperty(phone) + OrgProperty(companyName)
  }

  function EmailProperty(email: string): seq<Property> {
    if email != "" then [Property("EMAIL", email)] else []
  }

  function PhoneProperty(phone: string): seq<Property> {
    if phone != "" then [Property("TEL", CleanPhone(phone))] else []
  }

  function OrgProperty(companyName: string): seq<Property> {
    if companyName != "" then [Property("ORG", companyName)] else []
  }

  function Names(props: seq<Property>): (names: seq<string>)
    ensures |names| == |props|
    ensures forall i :: 0 <= i < |props| ==> names[i] == props[i].name
  {
    seq(|props|, i requires 0 <= i < |props| => props[i].name)
  }

  function RenderAll(props: seq<Property>): (lines: seq<string>)
    ensures |lines| == |props|
    ensures forall i :: 0 <= i < |props| ==> lines[i] == Render(props[i])
  {
    seq(|props|, i requires 0 <= i < |props| => Render(props[i]))
  }

  /** The card's text: the rendered properties joined by '\n', with no break
      after END. */
  function VCardText(firstName: string, lastName: string, email: string, phone: string,
                     companyName: string, rev: string): string
  {
    JoinLines(RenderAll(VCardProperties(firstName, lastName, email, phone, companyName, rev)))
  }

  /** The lines joined by '\n', with no break after the last one. */
  function JoinLines(lines: seq<string>): string {
    if |lines| == 0 then ""
    else if |lines| == 1 then lines[0]
    else lines[0] + "\n" + JoinLines(lines[1..])
  }

  /** Each line followed by its break. */
  function Terminated(lines: seq<string>): string {
    if lines == [] then "" else lines[0] + "\n" + Terminated(lines[1..])
  }

  lemma {:induction false} JoinAsTerminated(lines: seq<string>, last: string)
    ensures JoinLines(lines + [last]) == Terminated(lines) + last
  {
    if lines != [] {
      assert (lines + [last])[1..] == lines[1..] + [last];
      JoinAsTerminated(lines[1..], last);
    }
  }

  // ---------------------------------------------------------------------------
  // Reading a card back

  /** Splits text at every '\n'; the inverse of JoinLines. */
  function SplitLines(s: string): (lines: seq<string>)
    ensures |lines| >= 1
  {
    if s == [] then [""]
    else
      var rest := SplitLines(s[1..]);
      if s[0] == '\n' then [""] + rest else [[s[0]] + rest[0]] + rest[1..]
  }

  /** Splits a content line at its first ':'. */
  function ParseLine(line: string): Property {
    if line == [] then Property("", "")
    else if line[0] == ':' then Property("", line[1..])
    else
      var p := ParseLine(line[1..]);
      Property([line[0]] + p.name, p.value)
  }

  /** The properties of a card's text. */
  function ParseCard(text: string): (props: seq<Property>)
  {
    var lines := SplitLines(text);
    seq(|lines|, i requires 0 <= i < |lines| => ParseLine(lines[i]))
  }

  predicate NoBreak(s: string) {
    forall i :: 0 <= i < |s| ==> s[i] != '\n'
  }

  predicate NoColon(s: string) {
    forall i :: 0 <= i < |s| ==> s[i] != ':'
  }

  lemma {:induction false} SplitLine(line: string, more: string)
    requires NoBreak(line)
    ensures SplitLines(line) == [line]
    ensures SplitLines(line + "\n" + more) == [line] + SplitLines(more)
  {
    if line == [] {
      assert line + "\n" + more == "\n" + more;
      assert ("\n" + more)[1..] == more;
    } else {
      SplitLine(line[1..], more);
      assert [line[0]] + line[1..] == line;
      assert (line + "\n" + more)[1..] == line[1..] + "\n" + more;
    }
  }

  /** Splitting joined lines that hold no break gives the lines back. */
  lemma {:induction false} SplitJoin(lines: seq<string>)
    requires |lines| >= 1
    requires forall i :: 0 <= i < |lines| ==> NoBreak(lines[i])
    ensures SplitLines(JoinLines(lines)) == lines
  {
    if |lines| == 1 {
      SplitLine(lines[0], "");
    } else {
      SplitJoin(lines[1..]);
      SplitLine(lines[0], JoinLines(lines[1..]));
    }
  }

  /** A rendered line parses back to its property when the name has no ':'. */
  lemma {:induction false} ParseRender(p: Property)
    requires NoColon(p.name)
    ensures ParseLine(Render(p)) == p
    decreases |p.name|
  {
    if p.name == [] {
      assert Render(p) == ":" + p.value;
      assert (":" + p.value)[1..] == p.value;
    } else {
      var tail := Property(p.name[1..], p.value);
      ParseRender(tail);
      assert Render(p)[0] == p.name[0];
      assert Render(p)[1..] == Render(tail);
      assert [p.name[0]] + p.name[1..] == p.name;
    }
  }

  lemma {:induction false} CleanPhoneNoBreak(phone: string)
    ensures NoBreak(CleanPhone(phone))
  {
  }

  /** A property whose line can be read back: no break anywhere, no ':' in
      the name. */
  predicate Clean(p: Property) {
    NoBreak(p.name) && NoColon(p.name) && NoBreak(p.value)
  }

  lemma RenderNoBreak(p: Property)
    requires Clean(p)
    ensures NoBreak(Render(p))
  {
    var l := Render(p);
    forall j | 0 <= j < |l| ensures l[j] != '\n' {
      if j < |p.name| {
        assert l[j] == p.name[j];
      } else if j > |p.name| {
        assert l[j] == p.value[j - |p.name| - 1];
      }
    }
  }

  predicate AllClean(ps: seq<Property>) {
    forall i :: 0 <= i < |ps| ==> Clean(ps[i])
  }

  lemma AllCleanAppend(a: seq<Property>, b: seq<Property>)
    requires AllClean(a) && AllClean(b)
    ensures AllClean(a + b)
  {
    forall i | 0 <= i < |a + b| ensures Clean((a + b)[i]) {
      if i >= |a| {
        assert (a + b)[i] == b[i - |a|];
      }
    }
  }

  lemma NoBreakAppend(a: string, b: string)
    requires NoBreak(a) && NoBreak(b)
    ensures NoBreak(a + b)
  {
    forall i | 0 <= i < |a + b| ensures (a + b)[i] != '\n' {
      if i >= |a| {
        assert (a + b)[i] == b[i - |a|];
      }
    }
  }

  lemma OptionalPropertiesClean(email: string, phone: string, companyName: string)
    requires NoBreak(email) && NoBreak(companyName)
    ensures AllClean(OptionalProperties(email, phone, companyName))
  {
    CleanPhoneNoBreak(phone);
    assert AllClean(EmailProperty(email));
    assert AllClean(PhoneProperty(phone));
    assert AllClean(OrgProperty(companyName));
    AllCleanAppend(EmailProperty(email), PhoneProperty(phone));
    AllCleanAppend(EmailProperty(email) + PhoneProperty(phone), OrgProperty(companyName));
  }

  lemma HeadPropertiesClean(firstName: string, lastName: string)
    requires NoBreak(firstName) && NoBreak(lastName)
    ensures AllClean(HeadProperties(firstName, lastName))
  {
    assert NoBreak(" ") && NoBreak(";") && NoBreak(";;;");
    NoBreakAppend(firstName, " ");
    NoBreakAppend(firstName + " ", lastName);
    NoBreakAppend(lastName, ";");
    NoBreakAppend(lastName + ";", firstName);
    NoBreakAppend(lastName + ";" + firstName, ";;;");
    assert Clean(Property("BEGIN", "VCARD")) && Clean(Property("VERSION", "3.0"));
    assert Clean(Property("FN", firstName + " " + lastName));
    assert Clean(Property("N", lastName + ";" + firstName + ";;;"));
  }

  lemma VCardPropertiesClean(firstName: string, lastName: string, email: string, phone: string,
                             companyName: string, rev: string)
    requires NoBreak(firstName) && NoBreak(lastName) && NoBreak(email) && NoBreak(companyName) && NoBreak(rev)
    ensures AllClean(VCardProperties(firstName, lastName, email, phone, companyName, rev))
  {
    var head := HeadProperties(firstName, lastName);
    var optional := OptionalProperties(email, phone, companyName);
    HeadPropertiesClean(firstName, lastName);
    OptionalPropertiesClean(email, phone, companyName);
    assert AllClean([Property("REV", rev)]) && AllClean([Property("END", "VCARD")]);
    AllCleanAppend(head, optional);
    AllCleanAppend(head + optional, [Property("REV", rev)]);
    AllCleanAppend(head + optional + [Property("REV", rev)], [Property("END", "VCARD")]);
  }

  /** Reading the card back: when no value holds a line break, splitting the
      text at '\n' and each line at its first ':' gives exactly the card's
      properties. */
  lemma VCardParses(firstName: string, lastName: string, email: string, phone: string,
                    companyName: string, rev: string)
    requires NoBreak(firstName) && NoBreak(lastName) && NoBreak(email) && NoBreak(companyName) && NoBreak(rev)
    ensures ParseCard(VCardText(firstName, lastName, email, phone, companyName, rev)) ==
              VCardProperties(firstName, lastName, email, phone, companyName, rev)
  {
    var props := VCardProperties(firstName, lastName, email, phone, companyName, rev);
    var lines := RenderAll(props);
    VCardPropertiesClean(firstName, lastName, email, phone, companyName, rev);
    forall i | 0 <= i < |lines| ensures NoBreak(lines[i]) {
      RenderNoBreak(props[i]);
    }
    SplitJoin(lines);
    forall i | 0 <= i < |props| ensures ParseLine(lines[i]) == props[i] {
      ParseRender(props[i]);
    }
  }

  // ---------------------------------------------------------------------------
  // What every card holds

  lemma NamesAppend(a: seq<Property>, b: seq<Property>)
    ensures Names(a + b) == Names(a) + Names(b)
  {
  }

  /** The names come in the fixed order BEGIN, VERSION, FN, N, then EMAIL,
      TEL and ORG each only when its input is non-empty, then REV and END. */
  lemma VCardNames(firstName: string, lastName: string, email: string, phone: string,
                   companyName: string, rev: string)
    ensures Names(VCardProperties(firstName, lastName, email, phone, companyName, rev)) ==
              ["BEGIN", "VERSION", "FN", "N"]
              + ((if email != "" then ["EMAIL"] else [])
                 + (if phone != "" then ["TEL"] else [])
                 + (if companyName != "" then ["ORG"] else []))
              + ["REV"] + ["END"]
  {
    var head := HeadProperties(firstName, lastName);
    var e, t, o := EmailProperty(email), PhoneProperty(phone), OrgProperty(companyName);
    var r, end := Property("REV", rev), Property("END", "VCARD");
    calc {
      Names(VCardProperties(firstName, lastName, email, phone, companyName, rev));
      Names(head + (e + t + o) + [r] + [end]);
      { NamesAppend(head + (e + t + o) + [r], [end]);
        NamesAppend(head + (e + t + o), [r]);
        NamesAppend(head, e + t + o); }
      Names(head) + Names(e + t + o) + Names([r]) + Names([end]);
      { NamesAppend(e + t, o);
        NamesAppend(e, t); }
      Names(head) + (Names(e) + Names(t) + Names(o)) + Names([r]) + Names([end]);
    }
    assert Names(head) == ["BEGIN", "VERSION", "FN", "N"];
    assert Names(e) == if email != "" then ["EMAIL"] else [];
    assert Names(t) == if phone != "" then ["TEL"] else [];
    assert Names(o) == if companyName != "" then ["ORG"] else [];
    assert Names([r]) == ["REV"] && Names([end]) == ["END"];
  }

  /** FN is "first last", N is "last;first;;;", the line before END is REV
      with the given timestamp, and the TEL value is the cleaned phone. */
  lemma VCardValues(firstName: string, lastName: string, email: string, phone: string,
                    companyName: string, rev: string)
    ensures var props := VCardProperties(firstName, lastName, email, phone, companyName, rev);
            props[2] == Property("FN", firstName + " " + lastName) &&
            props[3] == Property("N", lastName + ";" + firstName + ";;;") &&
            props[|props| - 2] == Property("REV", rev) &&
            (phone != "" ==> Property("TEL", CleanPhone(phone)) in props)
  {
    var head := HeadProperties(firstName, lastName);
    var e, t, o := EmailProperty(email), PhoneProperty(phone), OrgProperty(companyName);
    var props := VCardProperties(firstName, lastName, email, phone, companyName, rev);
    var before := head + (e + t + o);
    assert props == before + [Property("REV", rev)] + [Property("END", "VCARD")];
    assert props[2] == before[2] == head[2];
    assert props[3] == before[3] == head[3];
    if phone != "" {
      assert (e + t + o)[|e|] == Property("TEL", CleanPhone(phone));
      assert props[4 + |e|] == before[4 + |e|];
    }
  }

  /** A card holds an EMAIL line iff the address is non-empty, a TEL line iff
      the phone is non-empty and an ORG line iff the company name is
      non-empty. */
  lemma VCardOptionalLines(firstName: string, lastName: string, email: string, phone: string,
                           companyName: string, rev: string)
    ensures var names := Names(VCardProperties(firstName, lastName, email, phone, companyName, rev));
            ("EMAIL" in names <==> email != "") &&
            ("TEL" in names <==> phone != "") &&
            ("ORG" in names <==> companyName != "")
  {
    VCardNames(firstName, lastName, email, phone, companyName, rev);
    var head: seq<string> := ["BEGIN", "VERSION", "FN", "N"];
    var e: seq<string> := if email != "" then ["EMAIL"] else [];
    var t: seq<string> := if phone != "" then ["TEL"] else [];
    var o: seq<string> := if companyName != "" then ["ORG"] else [];
    var tail: seq<string> := ["REV"] + ["END"];
    assert head + (e + t + o) + ["REV"] + ["END"] == head + (e + t + o) + tail;
    OnlyInMiddle("EMAIL", head, e + t + o, tail);
    OnlyInMiddle("TEL", head, e + t + o, tail);
    OnlyInMiddle("ORG", head, e + t + o, tail);
  }

  lemma OnlyInMiddle(x: string, a: seq<string>, m: seq<string>, b: seq<string>)
    requires x !in a && x !in b
    ensures x in a + m + b <==> x in m
  {
  }

  // ---------------------------------------------------------------------------
  // The builder

  /** One fmt.Sprintf("NAME:%s\n", value) written to the builder. */
  function Line(name: string, value: string): string {
    name + ":" + value + "\n"
  }

  lemma RenderAllAppend(a: seq<Property>, b: seq<Property>)
    ensures RenderAll(a + b) == RenderAll(a) + RenderAll(b)
  {
  }

  lemma {:induction false} TerminatedAppend(a: seq<string>, b: seq<string>)
    ensures Terminated(a + b) == Terminated(a) + Terminated(b)
  {
    if a == [] {
      assert a + b == b;
    } else {
      assert (a + b)[1..] == a[1..] + b;
      TerminatedAppend(a[1..], b);
    }
  }

  /** The text written for a run of properties is their terminated lines. */
  lemma WrittenLines(props: seq<Property>)
    requires |props| <= 1
    ensures Terminated(RenderAll(props)) == if props == [] then "" else Line(props[0].name, props[0].value)
  {
    if props != [] {
      assert RenderAll(props) == [Render(props[0])];
      assert RenderAll(props)[1..] == [];
    }
  }

  /** The text of the first four lines. */
  function HeadText(firstName: string, lastName: string): string {
    Line("BEGIN", "VCARD") + Line("VERSION", "3.0") +
    Line("FN", firstName + " " + lastName) + Line("N", lastName + ";" + firstName + ";;;")
  }

  /** The text of a line that is written only when its value is non-empty. */
  function Optional(present: bool, name: string, value: string): string {
    if present then Line(name, value) else ""
  }

  /** The card text in the order the builder writes it. */
  function BuiltText(firstName: string, lastName: string, email: string, phone: string,
                     companyName: string, rev: string): string
  {
    HeadText(firstName, lastName) + OptionalText(email, phone, companyName) + Line("REV", rev) + "END:VCARD"
  }

  /** The EMAIL, TEL and ORG lines that are written. */
  function OptionalText(email: string, phone: string, companyName: string): string {
    Optional(email != "", "EMAIL", email) + Optional(phone != "", "TEL", CleanPhone(phone)) +
    Optional(companyName != "", "ORG", companyName)
  }

  lemma HeadWritten(firstName: string, lastName: string)
    ensures Terminated(RenderAll(HeadProperties(firstName, lastName))) == HeadText(firstName, lastName)
  {
    var b, v := Property("BEGIN", "VCARD"), Property("VERSION", "3.0");
    var f, n := Property("FN", firstName + " " + lastName), Property("N", lastName + ";" + firstName + ";;;");
    assert [b, v, f, n] == [b] + [v] + [f] + [n];
    RenderAllAppend([b] + [v] + [f], [n]);
    RenderAllAppend([b] + [v], [f]);
    RenderAllAppend([b], [v]);
    TerminatedAppend(RenderAll([b]) + RenderAll([v]) + RenderAll([f]), RenderAll([n]));
    TerminatedAppend(RenderAll([b]) + RenderAll([v]), RenderAll([f]));
    TerminatedAppend(RenderAll([b]), RenderAll([v]));
    WrittenLines([b]);
    WrittenLines([v]);
    WrittenLines([f]);
    WrittenLines([n]);
  }

  lemma OptionalWritten(email: string, phone: string, companyName: string)
    ensures Terminated(RenderAll(OptionalProperties(email, phone, companyName))) ==
            OptionalText(email, phone, companyName)
  {
    var e, p, o := EmailProperty(email), PhoneProperty(phone), OrgProperty(companyName);
    RenderAllAppend(e + p, o);
    RenderAllAppend(e, p);
    TerminatedAppend(RenderAll(e) + RenderAll(p), RenderAll(o));
    TerminatedAppend(RenderAll(e), RenderAll(p));
    WrittenLines(e);
    WrittenLines(p);
    WrittenLines(o);
  }

  /** The text the builder writes is the reference card. */
  lemma BuiltTextIsCard(firstName: string, lastName: string, email: string, phone: string,
                        companyName: string, rev: string)
    ensures BuiltText(firstName, lastName, email, phone, companyName, rev) ==
            VCardText(firstName, lastName, email, phone, companyName, rev)
  {
    var head := HeadProperties(firstName, lastName);
    var opt := OptionalProperties(email, phone, companyName);
    var r := Property("REV", rev);
    var end := Property("END", "VCARD");
    var body := head + opt + [r];
    calc {
      VCardText(firstName, lastName, email, phone, companyName, rev);
      JoinLines(RenderAll(body + [end]));
      { RenderAllAppend(body, [end]);
        assert Render(end) == "END:VCARD";
        assert RenderAll([end]) == ["END:VCARD"]; }
      JoinLines(RenderAll(body) + ["END:VCARD"]);
      { JoinAsTerminated(RenderAll(body), "END:VCARD"); }
      Terminated(RenderAll(body)) + "END:VCARD";
      { RenderAllAppend(head + opt, [r]);
        RenderAllAppend(head, opt); }
      Terminated(RenderAll(head) + RenderAll(opt) + RenderAll([r])) + "END:VCARD";
      { TerminatedAppend(RenderAll(head) + RenderAll(opt), RenderAll([r]));
        TerminatedAppend(RenderAll(head), RenderAll(opt)); }
      Terminated(RenderAll(head)) + Terminated(RenderAll(opt)) + Terminated(RenderAll([r])) + "END:VCARD";
      { HeadWritten(firstName, lastName);
        OptionalWritten(email, phone, companyName);
        WrittenLines([r]); }
      HeadText(firstName, lastName) + OptionalText(email, phone, companyName) + Line("REV", rev) + "END:VCARD";
    }
  }

  /** The two fixed lines that open every card. */
  lemma OpeningLines()
    ensures Line("BEGIN", "VCARD") + Line("VERSION", "3.0") == "BEGIN:VCARD\nVERSION:3.0\n"
  {
    assert Line("BEGIN", "VCARD") == "BEGIN:VCARD\n";
    assert Line("VERSION", "3.0") == "VERSION:3.0\n";
  }

  /** Every card starts with the BEGIN and VERSION lines and ends with END. */
  lemma VCardFrame(firstName: string, lastName: string, email: string, phone: string,
                   companyName: string, rev: string)
    ensures var text := VCardText(firstName, lastName, email, phone, companyName, rev);
            |text| >= 24 && text[..24] == "BEGIN:VCARD\nVERSION:3.0\n" &&
            text[|text| - 9..] == "END:VCARD"
  {
    BuiltTextIsCard(firstName, lastName, email, phone, companyName, rev);
    var first := Line("BEGIN", "VCARD") + Line("VERSION", "3.0");
    OpeningLines();
    var head := HeadText(firstName, lastName);
    assert first <= head;
    var before := head + OptionalText(email, phone, companyName) + Line("REV", rev);
    assert head <= before;
    var text := before + "END:VCARD";
    assert first <= text;
    assert |first| == 24;
    assert text[..24] == first;
    assert text[|before|..] == "END:VCARD";
  }

  lemma Regroup(a: string, b: string, c: string, d: string)
    ensures a + b + c + d == a + (b + c + d)
  {
  }

  /** generateVCardContent, appending to a builder line by line. */
  method GenerateVCardContent(contact: Contact, companyName: string, rev: string) returns (vcard: string)
    ensures vcard == VCardText(contact.firstName, contact.lastName, contact.email, contact.phone, companyName, rev)
    ensures |vcard| >= 24 && vcard[..24] == "BEGIN:VCARD\nVERSION:3.0\n" && vcard[|vcard| - 9..] == "END:VCARD"
  {
    var firstName, lastName, email, phone := contact.firstName, contact.lastName, contact.email, contact.phone;
    vcard := "";
    vcard := vcard + Line("BEGIN", "VCARD");
    vcard := vcard + Line("VERSION", "3.0");
    vcard := vcard + Line("FN", firstName + " " + lastName);
    vcard := vcard + Line("N", lastName + ";" + firstName + ";;;");
    assert vcard == HeadText(firstName, lastName);

    ghost var head := vcard;
    if email != "" {
      vcard := vcard + Line("EMAIL", email);
    }
    assert vcard == head + Optional(email != "", "EMAIL", email);

    if phone != "" {
      var cleanPhone := CleanPhone(phone);
      vcard := vcard + Line("TEL", cleanPhone);
    }
    assert vcard == head + Optional(email != "", "EMAIL", email) + Optional(phone != "", "TEL", CleanPhone(phone));

    if companyName != "" {
      vcard := vcard + Line("ORG", companyName);
    }
    Regroup(head, Optional(email != "", "EMAIL", email), Optional(phone != "", "TEL", CleanPhone(phone)),
            Optional(companyName != "", "ORG", companyName));
    assert vcard == head + OptionalText(email, phone, companyName);

    vcard := vcard + Line("REV", rev);
    vcard := vcard + "END:VCARD";
    BuiltTextIsCard(firstName, lastName, email, phone, companyName, rev);
    VCardFrame(firstName, lastName, email, phone, companyName, rev);
  }
}
