/**
 * The mail translator: `migrateMail` turns an App Engine mail message into a
 * SendGrid `SGMail`. The RFC 5322 address parser (Go's net/mail, section 3.4
 * of RFC 5322) is not modelled; it is a parameter, so every property here
 * holds whatever that parser does.
 */
module Mail {
  import opened Wrappers

  /** One parsed mailbox: its address and its display name ("" when absent). */
  datatype Address = Address(address: string, name: string)

  /** The fields of an App Engine `mail.Message` that the translator reads. */
  datatype Message = Message(
    sender: string,
    to: seq<string>,
    cc: seq<string>,
    bcc: seq<string>,
    subject: string,
    htmlBody: string,
    body: string,
    replyTo: string)

  /** The fields of a SendGrid `SGMail` that the translator writes. */
  datatype SGMail = SGMail(
    to: seq<string>,
    toName: seq<string>,
    cc: seq<string>,
    bcc: seq<string>,
    from: string,
    fromName: string,
    subject: string,
    html: string,
    text: string,
    replyTo: string)

  /** The message field whose parsing failed. */
  datatype Field = SenderField | ToField | CcField | BccField

  /** A translation error: the failing field and the parser's own message. */
  datatype MailError = ParseError(field: Field, cause: string)

  /** The address parser, as two total functions that answer a value or an error message. */
  datatype AddressParser = AddressParser(
    parseAddress: string -> Result<Address, string>,
    parseAddressList: string -> Result<seq<Address>, string>)

  /** One invocation of the parser: a single address, or an address list for one field. */
  datatype ParseCall = ParseAddressCall(input: string) | ParseListCall(field: Field, input: string)

  /** What a translation returns, together with the parser invocations it made, in order. */
  datatype Translation = Translation(result: Result<SGMail, MailError>, calls: seq<ParseCall>)

  /** The outcome of one optional list stage (Cc or Bcc) and the calls it made. */
  datatype Stage = Stage(result: Result<seq<Address>, string>, calls: seq<ParseCall>)

  /** Total length of a list of strings. */
  function TotalLength(parts: seq<string>): nat
  {
    if parts == [] then 0 else |parts[0]| + TotalLength(parts[1..])
  }

  /** Go's `strings.Join`: the parts with `sep` between each neighbouring pair. */
  function Join(parts: seq<string>, sep: string): (r: string)
    ensures |parts| == 1 ==> r == parts[0]
    ensures |r| == TotalLength(parts) + if parts == [] then 0 else (|parts| - 1) * |sep|
    ensures |parts| > 0 ==> |parts[0]| <= |r| && r[..|parts[0]|] == parts[0]
  {
    if parts == [] then ""
    else if |parts| == 1 then parts[0]
    else parts[0] + sep + Join(parts[1..], sep)
  }

  /** The addresses of a parsed list, in order (what the `AddTo`/`AddCc`/`AddBcc` loops append). */
  function Addresses(xs: seq<Address>): (r: seq<string>)
    ensures |r| == |xs|
    ensures forall i :: 0 <= i < |xs| ==> r[i] == xs[i].address
  {
    if xs == [] then [] else [xs[0].address] + Addresses(xs[1..])
  }

  /** The display names of a parsed list, in order (what the `AddToName` loop appends). */
  function Names(xs: seq<Address>): (r: seq<string>)
    ensures |r| == |xs|
    ensures forall i :: 0 <= i < |xs| ==> r[i] == xs[i].name
  {
    if xs == [] then [] else [xs[0].name] + Names(xs[1..])
  }

  /** The text of the Go error returned for a translation error. */
  function ErrorText(e: MailError): (r: string)
    ensures |r| > |e.cause| && r[|r| - |e.cause|..] == e.cause
  {
    var prefix := match e.field
      case SenderField => "Error parsing Sender address - "
      case ToField => "Error parsing To addresses - "
      case CcField => "Error parsing CC - "
      case BccField => "Error parsing BCC - ";
    prefix + e.cause
  }

  /** Distinct errors give distinct texts: the text names the failing field and keeps the parser's message. */
  lemma ErrorTextInjective(e1: MailError, e2: MailError)
    requires ErrorText(e1) == ErrorText(e2)
    ensures e1 == e2
  {
    assert ErrorText(e1)[14] == ErrorText(e2)[14];
  }

  /** Parses a Cc or Bcc list, skipping the parser entirely when the list is empty. */
  function OptionalList(p: AddressParser, field: Field, xs: seq<string>): Stage
  {
    if |xs| > 0 then
      var input := Join(xs, ",");
      Stage(p.parseAddressList(input), [ParseListCall(field, input)])
    else
      Stage(Success([]), [])
  }

  /** `migrateMail`: the reference definition, stage by stage. */
  function Translate(p: AddressParser, m: Message): Translation
  {
    var senderCall := ParseAddressCall(m.sender);
    match p.parseAddress(m.sender)
    case Failure(e) => Translation(Failure(ParseError(SenderField, e)), [senderCall])
    case Success(sender) =>
      var toCall := ParseListCall(ToField, Join(m.to, ","));
      match p.parseAddressList(toCall.input)
      case Failure(e) => Translation(Failure(ParseError(ToField, e)), [senderCall, toCall])
      case Success(tos) =>
        var cc := OptionalList(p, CcField, m.cc);
        var upToCc := [senderCall, toCall] + cc.calls;
        match cc.result
        case Failure(e) => Translation(Failure(ParseError(CcField, e)), upToCc)
        case Success(ccs) =>
          var bcc := OptionalList(p, BccField, m.bcc);
          match bcc.result
          case Failure(e) => Translation(Failure(ParseError(BccField, e)), upToCc + bcc.calls)
          case Success(bccs) =>
            var mail := SGMail(
              Addresses(tos), Names(tos), Addresses(ccs), Addresses(bccs),
              sender.address, sender.name,
              m.subject, m.htmlBody, m.body, m.replyTo);
            Translation(Success(mail), upToCc + bcc.calls)
  }

  /**
   * The parser calls a translation makes when every one succeeds: the sender,
   * then the To list, then Cc and Bcc, each only when non-empty.
   */
  function PlannedCalls(m: Message): seq<ParseCall>
  {
    [ParseAddressCall(m.sender), ParseListCall(ToField, Join(m.to, ","))]
    + (if |m.cc| > 0 then [ParseListCall(CcField, Join(m.cc, ","))] else [])
    + (if |m.bcc| > 0 then [ParseListCall(BccField, Join(m.bcc, ","))] else [])
  }

  /** Whether the parser accepts the input of call `c`. */
  predicate Succeeds(p: AddressParser, c: ParseCall)
  {
    match c
    case ParseAddressCall(s) => p.parseAddress(s).Success?
    case ParseListCall(_, s) => p.parseAddressList(s).Success?
  }

  /** The field a call belongs to. */
  function FieldOf(c: ParseCall): Field
  {
    match c
    case ParseAddressCall(_) => SenderField
    case ParseListCall(f, _) => f
  }

  /** The parser's error message for a call it rejects. */
  function Cause(p: AddressParser, c: ParseCall): string
    requires !Succeeds(p, c)
  {
    match c
    case ParseAddressCall(s) => p.parseAddress(s).error
    case ParseListCall(_, s) => p.parseAddressList(s).error
  }

  /**
   * Fail-fast order: the calls made are a prefix of the planned ones; every
   * call but the last succeeded; the translation succeeds exactly when the
   * whole plan ran and its last call succeeded; otherwise the error names the
   * last (failing) call's field and carries the parser's message.
   */
  lemma TranslateFollowsPlan(p: AddressParser, m: Message)
    ensures var t := Translate(p, m);
      && t.calls <= PlannedCalls(m)
      && |t.calls| > 0
      && (forall i :: 0 <= i < |t.calls| - 1 ==> Succeeds(p, t.calls[i]))
      && (t.result.Success? <==> t.calls == PlannedCalls(m) && Succeeds(p, t.calls[|t.calls| - 1]))
      && (t.result.Failure? ==>
            && !Succeeds(p, t.calls[|t.calls| - 1])
            && t.result.error == ParseError(FieldOf(t.calls[|t.calls| - 1]), Cause(p, t.calls[|t.calls| - 1])))
  {
  }

  /** A sender that does not parse fails the translation before any list is parsed. */
  lemma SenderFailureStopsEarly(p: AddressParser, m: Message)
    requires p.parseAddress(m.sender).Failure?
    ensures Translate(p, m).result == Failure(ParseError(SenderField, p.parseAddress(m.sender).error))
    ensures Translate(p, m).calls == [ParseAddressCall(m.sender)]
  {
  }

  /**
   * Lockstep To/ToName: on success both arrays have one entry per parsed To
   * entry, in input order, index i of each coming from the same entry.
   */
  lemma ToLockstep(p: AddressParser, m: Message)
    requires Translate(p, m).result.Success?
    ensures p.parseAddressList(Join(m.to, ",")).Success?
    ensures var tos := p.parseAddressList(Join(m.to, ",")).value;
      var mail := Translate(p, m).result.value;
      && |mail.to| == |mail.toName| == |tos|
      && forall i :: 0 <= i < |tos| ==> mail.to[i] == tos[i].address && mail.toName[i] == tos[i].name
  {
  }

  /**
   * Cc and Bcc: an empty list is never handed to the parser and stays empty;
   * a non-empty one contributes exactly its parsed addresses, in order, names dropped.
   */
  lemma CopyListsAddressesOnly(p: AddressParser, m: Message)
    requires Translate(p, m).result.Success?
    ensures var t := Translate(p, m); var mail := t.result.value;
      && (|m.cc| == 0 ==> mail.cc == [] && forall c :: c in t.calls ==> FieldOf(c) != CcField)
      && (|m.bcc| == 0 ==> mail.bcc == [] && forall c :: c in t.calls ==> FieldOf(c) != BccField)
      && (|m.cc| > 0 ==>
            var ccs := p.parseAddressList(Join(m.cc, ","));
            ccs.Success? && |mail.cc| == |ccs.value|
            && forall i :: 0 <= i < |ccs.value| ==> mail.cc[i] == ccs.value[i].address)
      && (|m.bcc| > 0 ==>
            var bccs := p.parseAddressList(Join(m.bcc, ","));
            bccs.Success? && |mail.bcc| == |bccs.value|
            && forall i :: 0 <= i < |bccs.value| ==> mail.bcc[i] == bccs.value[i].address)
  {
  }

  /** Subject, bodies and reply-to are copied verbatim; From/FromName come from the parsed sender. */
  lemma VerbatimFields(p: AddressParser, m: Message)
    requires Translate(p, m).result.Success?
    ensures var mail := Translate(p, m).result.value;
      && p.parseAddress(m.sender).Success?
      && mail.from == p.parseAddress(m.sender).value.address
      && mail.fromName == p.parseAddress(m.sender).value.name
      && mail.subject == m.subject && mail.html == m.htmlBody
      && mail.text == m.body && mail.replyTo == m.replyTo
  {
  }

  /** The repository's regression case, for any parser that reads its four addresses as net/mail does. */
  lemma MigrateExample(p: AddressParser)
    requires p.parseAddress("Doe Email <doe@email.com>") == Success(Address("doe@email.com", "Doe Email"))
    requires p.parseAddressList("John Doe <john@email.com>") == Success([Address("john@email.com", "John Doe")])
    requires p.parseAddressList("cc@host.com") == Success([Address("cc@host.com", "")])
    requires p.parseAddressList("bcc@host.com") == Success([Address("bcc@host.com", "")])
    ensures Translate(p, Message("Doe Email <doe@email.com>", ["John Doe <john@email.com>"],
                                 ["cc@host.com"], ["bcc@host.com"], "test", "html", "text", "")).result
         == Success(SGMail(["john@email.com"], ["John Doe"], ["cc@host.com"], ["bcc@host.com"],
                           "doe@email.com", "Doe Email", "test", "html", "text", ""))
  {
    var john := [Address("john@email.com", "John Doe")];
    assert Addresses(john) == ["john@email.com"] && Names(john) == ["John Doe"];
    assert Addresses([Address("cc@host.com", "")]) == ["cc@host.com"];
    assert Addresses([Address("bcc@host.com", "")]) == ["bcc@host.com"];
  }

  /**
   * `migrateMail` as the Go code runs it: the sender first, then the To list
   * with `AddTo`/`AddToName` appended in one loop, then Cc and Bcc only when
   * non-empty. `calls` records the parser invocations.
   */
  method MigrateMail(p: AddressParser, m: Message) returns (r: Result<SGMail, MailError>, ghost calls: seq<ParseCall>)
    ensures r == Translate(p, m).result
    ensures calls == Translate(p, m).calls
  {
    var sgmail := SGMail([], [], [], [], "", "", m.subject, m.htmlBody, m.body, m.replyTo);
    calls := [ParseAddressCall(m.sender)];
    var sender := p.parseAddress(m.sender);
    if sender.Failure? {
      return Failure(ParseError(SenderField, sender.error)), calls;
    }
    sgmail := sgmail.(from := sender.value.address);
    sgmail := sgmail.(fromName := sender.value.name);

    var toInput := Join(m.to, ",");
    calls := calls + [ParseListCall(ToField, toInput)];
    var tos := p.parseAddressList(toInput);
    if tos.Failure? {
      return Failure(ParseError(ToField, tos.error)), calls;
    }
    var base := sgmail;
    for i := 0 to |tos.value|
      invariant |sgmail.to| == i && |sgmail.toName| == i
      invariant forall k :: 0 <= k < i ==> sgmail.to[k] == tos.value[k].address
      invariant forall k :: 0 <= k < i ==> sgmail.toName[k] == tos.value[k].name
      invariant sgmail.(to := [], toName := []) == base
    {
      sgmail := sgmail.(to := sgmail.to + [tos.value[i].address]);
      sgmail := sgmail.(toName := sgmail.toName + [tos.value[i].name]);
    }
    assert sgmail == base.(to := Addresses(tos.value), toName := Names(tos.value));

    if |m.cc| > 0 {
      var ccInput := Join(m.cc, ",");
      calls := calls + [ParseListCall(CcField, ccInput)];
      var ccs := p.parseAddressList(ccInput);
      if ccs.Failure? {
        return Failure(ParseError(CcField, ccs.error)), calls;
      }
      base := sgmail;
      for i := 0 to |ccs.value|
        invariant |sgmail.cc| == i
        invariant forall k :: 0 <= k < i ==> sgmail.cc[k] == ccs.value[k].address
        invariant sgmail.(cc := []) == base
      {
        sgmail := sgmail.(cc := sgmail.cc + [ccs.value[i].address]);
      }
      assert sgmail == base.(cc := Addresses(ccs.value));
    }

    if |m.bcc| > 0 {
      var bccInput := Join(m.bcc, ",");
      calls := calls + [ParseListCall(BccField, bccInput)];
      var bccs := p.parseAddressList(bccInput);
      if bccs.Failure? {
        return Failure(ParseError(BccField, bccs.error)), calls;
      }
      base := sgmail;
      for i := 0 to |bccs.value|
        invariant |sgmail.bcc| == i
        invariant forall k :: 0 <= k < i ==> sgmail.bcc[k] == bccs.value[k].address
        invariant sgmail.(bcc := []) == base
      {
        sgmail := sgmail.(bcc := sgmail.bcc + [bccs.value[i].address]);
      }
      assert sgmail == base.(bcc := Addresses(bccs.value));
    }
    r := Success(sgmail);
  }
}
