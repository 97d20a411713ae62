/**
 * The two-factor code pipeline. After a login attempt the brokerage mails a
 * one-time code; the pipeline waits for delivery, logs into the mailbox,
 * searches the brokerage's messages, reads the code out of the HTML of the
 * one that arrived last, and deletes that message once its code has been read.
 *
 * The mailbox is a server-side object whose state changes (messages are
 * flagged and expunged); the session's requests are kept in an event log.
 * HTML and MIME parsing are outside the model: a message already is its
 * parts, and an HTML document already is its elements.
 */
module TwoFactorMail {
  import opened Wrappers
  import opened Text
  import opened Common

  /** Seconds to wait for the code to be delivered before looking for it. */
  const DELIVERY_WAIT: real := 20.0
  const IMAP_HOST: string := "imap.gmail.com"
  const INBOX: string := "inbox"
  const ADD_FLAGS: string := "+FLAGS"
  const DELETED_FLAG: string := "\\Deleted"
  /** The style declaration that marks the element showing the code. */
  const CODE_STYLE: string := "font-size: 32px"

  type MsgId = string

  /** An element of an HTML document, reduced to what the code search looks at. */
  datatype Element = Element(tag: string, style: string, text: string)
  type Html = seq<Element>

  datatype Part = Part(contentType: string, html: Html)
  /** A single-part message is read as HTML as it stands; a multipart one through its parts. */
  datatype Body = Single(html: Html) | Multipart(parts: seq<Part>)
  datatype Message = Message(sender: string, body: Body)

  /** The requests a mail session makes, and the pause before it. */
  datatype MailEvent =
    | Slept(secs: real)
    | Login(host: string, user: string)
    | Selected(folder: string)
    | Searched(criterion: string)
    | Fetched(id: MsgId)
    | Stored(id: MsgId, command: string, flag: string)
    | Expunged

  /** The search criterion for the messages sent by `sender`. */
  function SearchCriterion(sender: string): string {
    "(FROM \"" + sender + "\")"
  }

  /** A span styled with the code's font size, whatever other declarations its style holds. */
  predicate IsCodeSpan(e: Element) {
    e.tag == "span" && Contains(e.style, CODE_STYLE)
  }

  lemma CodeStyleAmongDeclarations(pre: string, post: string, text: string)
    ensures IsCodeSpan(Element("span", pre + CODE_STYLE + post, text))
  {
    var style := pre + CODE_STYLE + post;
    assert CODE_STYLE <= style[|pre|..] by {
      assert style[|pre|..] == CODE_STYLE + post;
    }
    ContainsAt(style, CODE_STYLE, |pre|);
  }

  /** The text of the first code span of the document, if there is one. */
  function FindCode(html: Html): Option<string> {
    if html == [] then None
    else if IsCodeSpan(html[0]) then Some(html[0].text)
    else FindCode(html[1..])
  }

  /**
   * A code is found exactly when the document has a code span, and then it is the
   * text of the first one, at position `k`.
   */
  lemma {:induction false} FirstCodeSpan(html: Html) returns (k: int)
    ensures FindCode(html).None? ==> forall i :: 0 <= i < |html| ==> !IsCodeSpan(html[i])
    ensures FindCode(html).Some? ==>
              0 <= k < |html| && IsCodeSpan(html[k]) && FindCode(html).value == html[k].text
              && forall j :: 0 <= j < k ==> !IsCodeSpan(html[j])
    decreases |html|
  {
    k := 0;
    if html != [] && !IsCodeSpan(html[0]) {
      var k' := FirstCodeSpan(html[1..]);
      k := k' + 1;
      forall i | 1 <= i < |html| ensures html[i] == html[1..][i - 1] { }
    }
  }

  /** The HTML part of a multipart message: the first part whose type is text/html. */
  function FirstHtmlPart(parts: seq<Part>): Option<Html> {
    if parts == [] then None
    else if parts[0].contentType == "text/html" then Some(parts[0].html)
    else FirstHtmlPart(parts[1..])
  }

  /**
   * An HTML part is found exactly when there is a text/html part, and then it is
   * the first one, at position `k`.
   */
  lemma {:induction false} FirstHtmlPartAt(parts: seq<Part>) returns (k: int)
    ensures FirstHtmlPart(parts).None? ==> forall i :: 0 <= i < |parts| ==> parts[i].contentType != "text/html"
    ensures FirstHtmlPart(parts).Some? ==>
              0 <= k < |parts| && parts[k].contentType == "text/html" && FirstHtmlPart(parts).value == parts[k].html
              && forall j :: 0 <= j < k ==> parts[j].contentType != "text/html"
    decreases |parts|
  {
    k := 0;
    if parts != [] && parts[0].contentType != "text/html" {
      var k' := FirstHtmlPartAt(parts[1..]);
      k := k' + 1;
      forall i | 1 <= i < |parts| ensures parts[i] == parts[1..][i - 1] { }
    }
  }

  /** The HTML a message is read as. */
  function HtmlOf(b: Body): (r: Option<Html>)
    ensures b.Single? ==> r == Some(b.html)
    ensures b.Multipart? ==> r == FirstHtmlPart(b.parts)
  {
    match b
    case Single(h) => Some(h)
    case Multipart(parts) => FirstHtmlPart(parts)
  }

  /** The code a message carries. */
  function CodeIn(m: Message): Option<string> {
    match HtmlOf(m.body)
    case None => None
    case Some(h) => FindCode(h)
  }

  /** A message's code is the text of the first code span of its HTML part (of itself when it is single-part). */
  lemma CodeInMessage(m: Message)
    ensures m.body.Single? ==> CodeIn(m) == FindCode(m.body.html)
    ensures m.body.Multipart? ==>
              (CodeIn(m).Some? <==>
                 exists i :: 0 <= i < |m.body.parts| && m.body.parts[i].contentType == "text/html"
                             && FindCode(m.body.parts[i].html).Some?
                             && forall j :: 0 <= j < i ==> m.body.parts[j].contentType != "text/html")
  {
    if m.body.Multipart? {
      var ps := m.body.parts;
      var k := FirstHtmlPartAt(ps);
      if i :| 0 <= i < |ps| && ps[i].contentType == "text/html" && FindCode(ps[i].html).Some?
             && forall j :: 0 <= j < i ==> ps[j].contentType != "text/html" {
        assert k == i;
      }
    }
  }

  /** The message `id` is in the mailbox and comes from `sender`. */
  predicate IsFrom(messages: map<MsgId, Message>, id: MsgId, sender: string) {
    id in messages && messages[id].sender == sender
  }

  /** The ids in `order` of the messages from `sender`, in the same order. */
  function Matching(order: seq<MsgId>, messages: map<MsgId, Message>, sender: string): (r: seq<MsgId>)
    ensures |r| <= |order|
  {
    if order == [] then []
    else
      var rest := Matching(order[1..], messages, sender);
      if IsFrom(messages, order[0], sender) then [order[0]] + rest else rest
  }

  /**
   * The matching ids are exactly the ids of `order` whose message comes from
   * `sender`; there are none exactly when no message of `order` does.
   */
  lemma {:induction false} MatchingMembers(order: seq<MsgId>, messages: map<MsgId, Message>, sender: string)
    ensures forall i :: 0 <= i < |Matching(order, messages, sender)| ==>
              Matching(order, messages, sender)[i] in order && IsFrom(messages, Matching(order, messages, sender)[i], sender)
    ensures forall i :: 0 <= i < |order| && IsFrom(messages, order[i], sender) ==> order[i] in Matching(order, messages, sender)
    ensures Matching(order, messages, sender) == [] <==> forall i :: 0 <= i < |order| ==> !IsFrom(messages, order[i], sender)
    decreases |order|
  {
    if order != [] {
      var tail := order[1..];
      var rest := Matching(tail, messages, sender);
      MatchingMembers(tail, messages, sender);
      forall i | 1 <= i < |order| ensures order[i] == tail[i - 1] { }
      var r := Matching(order, messages, sender);
      if IsFrom(messages, order[0], sender) {
        assert r == [order[0]] + rest;
        forall i | 1 <= i < |r| ensures r[i] == rest[i - 1] { }
      } else {
        assert r == rest;
      }
    }
  }

  /** Position `k` of `order` holds a message from `sender`, and no later position does. */
  predicate LastFrom(order: seq<MsgId>, messages: map<MsgId, Message>, sender: string, k: int) {
    0 <= k < |order| && IsFrom(messages, order[k], sender)
    && forall j :: k < j < |order| ==> !IsFrom(messages, order[j], sender)
  }

  /** The last id of the matching list belongs to the match that arrived last. */
  lemma {:induction false} MatchingLast(order: seq<MsgId>, messages: map<MsgId, Message>, sender: string)
      returns (k: int)
    requires Matching(order, messages, sender) != []
    ensures LastFrom(order, messages, sender, k)
    ensures order[k] == Matching(order, messages, sender)[|Matching(order, messages, sender)| - 1]
    decreases |order|
  {
    var tail := order[1..];
    var rest := Matching(tail, messages, sender);
    MatchingMembers(tail, messages, sender);
    if rest == [] {
      k := 0;
      forall j | 0 < j < |order| ensures !IsFrom(messages, order[j], sender) {
        assert order[j] == tail[j - 1];
      }
    } else {
      var k' := MatchingLast(tail, messages, sender);
      k := k' + 1;
      assert order[k] == tail[k'];
      forall j | k < j < |order| ensures !IsFrom(messages, order[j], sender) {
        assert order[j] == tail[j - 1];
      }
    }
  }

  /** `order` with the ids of `gone` removed. */
  function Without(order: seq<MsgId>, gone: set<MsgId>): (r: seq<MsgId>)
    ensures |r| <= |order|
  {
    if order == [] then []
    else
      var rest := Without(order[1..], gone);
      if order[0] in gone then rest else [order[0]] + rest
  }

  /** An id survives in `order` exactly when it was there and is not in `gone`. */
  lemma {:induction false} WithoutMembers(order: seq<MsgId>, gone: set<MsgId>)
    ensures forall x :: x in Without(order, gone) <==> x in order && x !in gone
    decreases |order|
  {
    if order != [] {
      WithoutMembers(order[1..], gone);
      assert forall x :: x in order <==> x == order[0] || x in order[1..];
    }
  }

  /** The messages not in `gone`. */
  function Surviving(messages: map<MsgId, Message>, gone: set<MsgId>): (r: map<MsgId, Message>)
    ensures r.Keys == messages.Keys - gone
    ensures forall id :: id in r ==> r[id] == messages[id]
  {
    map id | id in messages && id !in gone :: messages[id]
  }

  /** The content of a mailbox: its messages in arrival order, and those marked deleted. */
  datatype Inbox = Inbox(order: seq<MsgId>, messages: map<MsgId, Message>, flagged: set<MsgId>)
  {
    /** Every id is a single word, and the arrival order lists exactly the messages. */
    predicate Valid() {
      (forall id :: id in messages ==> IsToken(id)) &&
      (forall i :: 0 <= i < |order| ==> order[i] in messages) &&
      (forall id :: id in messages ==> id in order)
    }
  }

  /** The mailbox after `id` is marked deleted and the marked messages are expunged. */
  function Delete(s: Inbox, id: MsgId): (r: Inbox)
    ensures r.flagged == {}
  {
    var gone := s.flagged + {id};
    Inbox(Without(s.order, gone), Surviving(s.messages, gone), {})
  }

  /** Deleting keeps a mailbox valid; with nothing marked before, it removes exactly `id`. */
  lemma DeleteRemovesOnly(s: Inbox, id: MsgId)
    requires s.Valid()
    ensures Delete(s, id).Valid()
    ensures id !in Delete(s, id).messages
    ensures s.flagged == {} ==>
              Delete(s, id).messages.Keys == s.messages.Keys - {id}
              && (forall x :: x in Delete(s, id).messages ==> Delete(s, id).messages[x] == s.messages[x])
              && Delete(s, id).order == Without(s.order, {id})
  {
    var r := Delete(s, id);
    WithoutMembers(s.order, s.flagged + {id});
    forall i | 0 <= i < |r.order| ensures r.order[i] in r.messages {
      assert r.order[i] in r.order;
    }
    if s.flagged == {} {
      assert s.flagged + {id} == {id};
    }
  }

  /** The newest message from `sender`: the last id of the search result. */
  function Newest(s: Inbox, sender: string): Option<MsgId> {
    var ids := Matching(s.order, s.messages, sender);
    if ids == [] then None else Some(ids[|ids| - 1])
  }

  /** There is no newest message exactly when no message comes from `sender`. */
  lemma NewestNone(s: Inbox, sender: string)
    requires s.Valid()
    ensures Newest(s, sender).None? <==> forall id :: id in s.messages ==> s.messages[id].sender != sender
  {
    MatchingMembers(s.order, s.messages, sender);
    if Newest(s, sender).None? {
      forall id | id in s.messages ensures s.messages[id].sender != sender {
        var i :| 0 <= i < |s.order| && s.order[i] == id;
        assert !IsFrom(s.messages, s.order[i], sender);
      }
    }
  }

  /** The newest message from `sender` is the last of them to arrive. */
  lemma NewestIsLatestArrival(s: Inbox, sender: string) returns (k: int)
    requires Newest(s, sender).Some?
    ensures LastFrom(s.order, s.messages, sender, k) && s.order[k] == Newest(s, sender).value
  {
    k := MatchingLast(s.order, s.messages, sender);
  }

  /** What extracting the code of `id` yields: an error when there is no such message, else its code. */
  function ExtractOutcome(s: Inbox, id: MsgId): Result<Option<string>, Exc> {
    if id in s.messages then Success(CodeIn(s.messages[id])) else Failure(MailboxError)
  }

  predicate FoundCode(r: Result<Option<string>, Exc>) {
    r.Success? && r.value.Some?
  }

  /** The requests of an extraction: the fetch, then, when a code was read, the deletion. */
  function ExtractLog(s: Inbox, id: MsgId): seq<MailEvent> {
    [Fetched(id)] + (if FoundCode(ExtractOutcome(s, id)) then [Stored(id, ADD_FLAGS, DELETED_FLAG), Expunged] else [])
  }

  function ExtractAfter(s: Inbox, id: MsgId): Inbox {
    if FoundCode(ExtractOutcome(s, id)) then Delete(s, id) else s
  }

  /** What the newest message of `sender` yields: nothing when there is none, else its code. */
  function NewestOutcome(s: Inbox, sender: string): Result<Option<string>, Exc> {
    match Newest(s, sender)
    case None => Success(None)
    case Some(id) => ExtractOutcome(s, id)
  }

  function NewestLog(s: Inbox, sender: string): seq<MailEvent> {
    match Newest(s, sender)
    case None => []
    case Some(id) => ExtractLog(s, id)
  }

  function NewestAfter(s: Inbox, sender: string): Inbox {
    match Newest(s, sender)
    case None => s
    case Some(id) => ExtractAfter(s, id)
  }

  /** What obtaining a code yields: an error on refused credentials, otherwise what the newest message yields. */
  function ObtainOutcome(s: Inbox, account: string, appPassword: string, user: string, password: string, sender: string)
    : Result<Option<string>, Exc>
  {
    if user != account || password != appPassword then Failure(MailboxError) else NewestOutcome(s, sender)
  }

  /** The pause, the login, and when it is accepted the inbox selection, the search and the extraction. */
  function ObtainLog(s: Inbox, account: string, appPassword: string, user: string, password: string, sender: string)
    : seq<MailEvent>
  {
    [Slept(DELIVERY_WAIT), Login(IMAP_HOST, user)] +
    if user != account || password != appPassword then []
    else [Selected(INBOX), Searched(SearchCriterion(sender))] + NewestLog(s, sender)
  }

  function ObtainAfter(s: Inbox, account: string, appPassword: string, user: string, password: string, sender: string)
    : Inbox
  {
    if user != account || password != appPassword then s else NewestAfter(s, sender)
  }

  /**
   * Obtaining a code: accepted credentials never end in an error; a code read comes
   * from the newest message of `sender`, which alone is then deleted (when nothing
   * else was marked); without a code the mailbox is left as it was.
   */
  lemma ObtainProperties(s: Inbox, account: string, appPassword: string, user: string, password: string, sender: string)
    requires s.Valid()
    ensures var r := ObtainOutcome(s, account, appPassword, user, password, sender);
            (r.Failure? <==> user != account || password != appPassword)
            && (r.Failure? ==> r.error == MailboxError)
    ensures var r := ObtainOutcome(s, account, appPassword, user, password, sender);
            var after := ObtainAfter(s, account, appPassword, user, password, sender);
            FoundCode(r) ==>
              var id := Newest(s, sender).value;
              Newest(s, sender).Some? && IsFrom(s.messages, id, sender)
              && CodeIn(s.messages[id]) == r.value && after == Delete(s, id)
    ensures !FoundCode(ObtainOutcome(s, account, appPassword, user, password, sender)) ==>
              ObtainAfter(s, account, appPassword, user, password, sender) == s
    ensures ObtainAfter(s, account, appPassword, user, password, sender).Valid()
  {
    MatchingMembers(s.order, s.messages, sender);
    match Newest(s, sender)
    case None =>
    case Some(id) => DeleteRemovesOnly(s, id);
  }

  /** The session sleeps once, before anything else, and then logs in with the given user. */
  lemma ObtainSleepsFirst(s: Inbox, account: string, appPassword: string, user: string, password: string, sender: string)
    ensures var log := ObtainLog(s, account, appPassword, user, password, sender);
            |log| >= 2 && log[0] == Slept(DELIVERY_WAIT) && log[1] == Login(IMAP_HOST, user)
            && forall i :: 1 <= i < |log| ==> !log[i].Slept?
  {
  }

  class Mailbox {
    /** Message ids in arrival order. */
    var order: seq<MsgId>
    var messages: map<MsgId, Message>
    /** Messages marked deleted and not yet expunged. */
    var flagged: set<MsgId>
    /** The session's requests, in order. */
    var log: seq<MailEvent>
    const account: string
    const appPassword: string

    function Contents(): Inbox
      reads this
    {
      Inbox(order, messages, flagged)
    }

    predicate Valid()
      reads this
    {
      Contents().Valid()
    }

    constructor (account: string, appPassword: string, contents: Inbox)
      requires contents.Valid()
      ensures Valid() && Contents() == contents && log == []
      ensures this.account == account && this.appPassword == appPassword
    {
      order := contents.order;
      messages := contents.messages;
      flagged := contents.flagged;
      log := [];
      this.account := account;
      this.appPassword := appPassword;
    }

    /** Pauses `secs` seconds. */
    method Sleep(secs: real)
      modifies this`log
      ensures log == old(log) + [Slept(secs)]
    {
      log := log + [Slept(secs)];
    }

    /** Logs in to the mail host and selects the inbox; the login is accepted for the account's own credentials only. */
    method Connect(user: string, password: string) returns (ok: bool)
      modifies this`log
      ensures ok == (user == account && password == appPassword)
      ensures log == old(log) + [Login(IMAP_HOST, user)] + (if ok then [Selected(INBOX)] else [])
    {
      log := log + [Login(IMAP_HOST, user)];
      ok := user == account && password == appPassword;
      if ok {
        log := log + [Selected(INBOX)];
      }
    }

    /** Searches for the messages of `sender`; the reply lists their ids in arrival order, separated by spaces. */
    method SearchFrom(sender: string) returns (reply: string)
      modifies this`log
      ensures log == old(log) + [Searched(SearchCriterion(sender))]
      ensures reply == Join(Matching(order, messages, sender), " ")
    {
      log := log + [Searched(SearchCriterion(sender))];
      reply := Join(Matching(order, messages, sender), " ");
    }

    /** Fetches a message. */
    method Fetch(id: MsgId) returns (m: Option<Message>)
      modifies this`log
      ensures log == old(log) + [Fetched(id)]
      ensures m == if id in messages then Some(messages[id]) else None
    {
      log := log + [Fetched(id)];
      m := if id in messages then Some(messages[id]) else None;
    }

    /** Marks `id` deleted. */
    method Store(id: MsgId)
      modifies this`log, this`flagged
      ensures log == old(log) + [Stored(id, ADD_FLAGS, DELETED_FLAG)]
      ensures flagged == old(flagged) + {id}
    {
      log := log + [Stored(id, ADD_FLAGS, DELETED_FLAG)];
      flagged := flagged + {id};
    }

    /** Removes every marked message. */
    method Expunge()
      modifies this
      ensures log == old(log) + [Expunged]
      ensures Contents() == Inbox(Without(old(order), old(flagged)), Surviving(old(messages), old(flagged)), {})
    {
      log := log + [Expunged];
      order := Without(order, flagged);
      messages := Surviving(messages, flagged);
      flagged := {};
    }
  }

  /** Searches the inbox for the messages of `sender` and splits the reply into their ids. */
  method SearchMessages(box: Mailbox, sender: string) returns (ids: seq<MsgId>)
    requires box.Valid()
    modifies box`log
    ensures box.log == old(box.log) + [Searched(SearchCriterion(sender))]
    ensures ids == Matching(box.order, box.messages, sender)
  {
    var reply := box.SearchFrom(sender);
    ids := SplitWords(reply);
    MatchingMembers(box.order, box.messages, sender);
    SplitJoin(Matching(box.order, box.messages, sender));
  }

  /** Marks `id` deleted and expunges the mailbox. */
  method DeleteMessage(box: Mailbox, id: MsgId)
    modifies box
    ensures box.log == old(box.log) + [Stored(id, ADD_FLAGS, DELETED_FLAG), Expunged]
    ensures box.Contents() == Delete(old(box.Contents()), id)
  {
    box.Store(id);
    box.Expunge();
  }

  /** Fetches `id` and reads its code; only when a code was read is the message deleted. */
  method ExtractAndDelete(box: Mailbox, id: MsgId) returns (r: Result<Option<string>, Exc>)
    modifies box
    ensures r == ExtractOutcome(old(box.Contents()), id)
    ensures box.log == old(box.log) + ExtractLog(old(box.Contents()), id)
    ensures box.Contents() == ExtractAfter(old(box.Contents()), id)
  {
    var m := box.Fetch(id);
    if m.None? {
      return Failure(MailboxError);
    }
    var code := CodeIn(m.value);
    if code.Some? {
      DeleteMessage(box, id);
    }
    r := Success(code);
  }

  /** Searches the messages of `sender` and extracts the code of the last one listed, if any is. */
  method ExtractNewest(box: Mailbox, sender: string) returns (r: Result<Option<string>, Exc>)
    requires box.Valid()
    modifies box
    ensures r == NewestOutcome(old(box.Contents()), sender)
    ensures box.log == old(box.log) + [Searched(SearchCriterion(sender))] + NewestLog(old(box.Contents()), sender)
    ensures box.Contents() == NewestAfter(old(box.Contents()), sender)
    ensures box.Valid()
  {
    ghost var s := box.Contents();
    var ids := SearchMessages(box, sender);
    if ids == [] {
      return Success(None);
    }
    var id := ids[|ids| - 1];
    assert Newest(s, sender) == Some(id);
    r := ExtractAndDelete(box, id);
    DeleteRemovesOnly(s, id);
  }

  /**
   * Waits for delivery, logs in, searches the messages of `sender` and extracts the
   * code of the last one listed; nothing is extracted when none is listed.
   */
  method ObtainCode(box: Mailbox, user: string, password: string, sender: string)
    returns (r: Result<Option<string>, Exc>)
    requires box.Valid()
    modifies box
    ensures r == ObtainOutcome(old(box.Contents()), box.account, box.appPassword, user, password, sender)
    ensures box.log == old(box.log) + ObtainLog(old(box.Contents()), box.account, box.appPassword, user, password, sender)
    ensures box.Contents() == ObtainAfter(old(box.Contents()), box.account, box.appPassword, user, password, sender)
    ensures box.Valid()
  {
    box.Sleep(DELIVERY_WAIT);
    var ok := box.Connect(user, password);
    if !ok {
      return Failure(MailboxError);
    }
    r := ExtractNewest(box, sender);
  }
}
