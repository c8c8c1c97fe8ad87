/** The Chatwork reply that carries the uploaded image: a reply tag quoting the
    triggering message, a name tag for its sender, a fixed caption and a file
    tag for the upload. A parser for the same shape is the template's inverse
    whenever the identifiers are decimal numbers, as Chatwork's are. */
module Reply {
  import Js
  import Decimal

  /** Text that follows the name tag: the honorific, a newline, the caption
      "here is an image!" and a newline. */
  const Caption: string := "]さん\n画像です！\n"

  /** The reply tag `[rp aid=A to=R-M]`: answers message M in room R by A. */
  function QuoteTag(account: string, room: string, message: string): string {
    "[rp aid=" + account + " to=" + room + "-" + message + "]"
  }

  /** The name tag `[pname:A` that the caption closes. */
  function NameTag(account: string): string {
    "[pname:" + account
  }

  /** The opening of the file tag. */
  const FileOpen: string := "[file:"

  /** The file tag `[file:F]` that embeds uploaded file F. */
  function FileTag(file: string): string {
    FileOpen + file + "]"
  }

  /** The reply text for already-converted identifiers. */
  function Message(account: string, room: string, message: string, file: string): string {
    QuoteTag(account, room, message) + NameTag(account) + Caption + FileTag(file)
  }

  /** Every identifier the template interpolates converts to text without
      throwing. */
  predicate Renders(accountId: Js.Value, roomId: Js.Value, messageId: Js.Value, fileId: Js.Value) {
    Js.Printable(accountId) && Js.Printable(roomId) && Js.Printable(messageId) && Js.Printable(fileId)
  }

  /** The reply text for the identifiers as the handler holds them: it quotes
      the triggering message and ends with the file tag of the upload. */
  function ReplyText(accountId: Js.Value, roomId: Js.Value, messageId: Js.Value, fileId: Js.Value): (t: string)
    requires Renders(accountId, roomId, messageId, fileId)
    ensures var q := QuoteTag(Js.Text(accountId), Js.Text(roomId), Js.Text(messageId));
      var f := FileTag(Js.Text(fileId));
      && |q| + |f| <= |t|
      && t[..|q|] == q
      && t[|t| - |f|..] == f
  {
    MessageShape(Js.Text(accountId), Js.Text(roomId), Js.Text(messageId), Js.Text(fileId));
    Message(Js.Text(accountId), Js.Text(roomId), Js.Text(messageId), Js.Text(fileId))
  }

  /** Everything the reply holds before the file id. */
  function Lead(account: string, room: string, message: string): string {
    QuoteTag(account, room, message) + NameTag(account) + Caption + FileOpen
  }

  /** The reply is its lead, the file id and a closing bracket. */
  lemma MessageEndsWithFileId(account: string, room: string, message: string, file: string)
    ensures Message(account, room, message, file) == Lead(account, room, message) + file + "]"
  {
  }

  /** The reply opens with the quote of the triggering message, names its
      sender right after it, and closes with the file tag. */
  lemma MessageShape(account: string, room: string, message: string, file: string)
    ensures var t := Message(account, room, message, file);
      var q := QuoteTag(account, room, message);
      var f := FileTag(file);
      && |q| + |f| <= |t|
      && t[..|q|] == q
      && t[|t| - |f|..] == f
      && t[|q|..|t| - |f|] == "[pname:" + account + Caption
  {
    var t := Message(account, room, message, file);
    var q := QuoteTag(account, room, message);
    var f := FileTag(file);
    var mid := NameTag(account) + Caption;
    assert t == q + mid + f;
  }

  // ---- the inverse: a parser for replies whose identifiers are digits ----

  datatype Ids = Ids(account: string, room: string, message: string, file: string)

  datatype Option<T> = None | Some(value: T)

  /** The rest of `s` after the literal `lit`, if `s` starts with it. */
  function AfterLiteral(lit: string, s: string): (r: Option<string>)
    ensures r.Some? <==> lit <= s
    ensures r.Some? ==> s == lit + r.value
  {
    if lit <= s then Some(s[|lit|..]) else None
  }

  /** The longest prefix of digits and what follows it. */
  function SpanDigits(s: string): (r: (string, string))
    ensures Decimal.IsDigits(r.0)
    ensures s == r.0 + r.1
    ensures r.1 == [] || !Decimal.IsDigit(r.1[0])
    decreases |s|
  {
    if s == [] || !Decimal.IsDigit(s[0]) then ([], s)
    else
      var (d, rest) := SpanDigits(s[1..]);
      ([s[0]] + d, rest)
  }

  /** A non-empty run of digits followed by the literal `lit`. */
  function DigitsThen(s: string, lit: string): Option<(string, string)> {
    var (d, rest) := SpanDigits(s);
    if d == [] then None
    else match AfterLiteral(lit, rest)
      case None => None
      case Some(r) => Some((d, r))
  }

  /** Reads the identifiers back out of a reply text. */
  function Parse(t: string): Option<Ids> {
    match AfterLiteral("[rp aid=", t)
    case None => None
    case Some(r1) =>
      match DigitsThen(r1, " to=")
      case None => None
      case Some((a, r2)) =>
        match DigitsThen(r2, "-")
        case None => None
        case Some((room, r3)) =>
          match DigitsThen(r3, "][pname:")
          case None => None
          case Some((m, r4)) =>
            match DigitsThen(r4, Caption + FileOpen)
            case None => None
            case Some((a2, r5)) =>
              match DigitsThen(r5, "]")
              case None => None
              case Some((f, r6)) =>
                if a2 == a && r6 == [] then Some(Ids(a, room, m, f)) else None
  }

  predicate IsId(s: string) {
    |s| > 0 && Decimal.IsDigits(s)
  }

  /** Spanning a digit run that is followed by a non-digit stops exactly there. */
  lemma {:induction false} SpanStopsAtNonDigit(d: string, rest: string)
    requires Decimal.IsDigits(d)
    requires rest == [] || !Decimal.IsDigit(rest[0])
    ensures SpanDigits(d + rest) == (d, rest)
    decreases |d|
  {
    if d != [] {
      var s := d + rest;
      assert s[0] == d[0] && Decimal.IsDigit(s[0]);
      assert s[1..] == d[1..] + rest;
      SpanStopsAtNonDigit(d[1..], rest);
      assert [d[0]] + d[1..] == d;
    } else {
      assert d + rest == rest;
    }
  }

  lemma DigitsThenReads(d: string, lit: string, rest: string)
    requires IsId(d)
    requires |lit| > 0 && !Decimal.IsDigit(lit[0])
    ensures DigitsThen(d + lit + rest, lit) == Some((d, rest))
  {
    assert d + lit + rest == d + (lit + rest);
    SpanStopsAtNonDigit(d, lit + rest);
    assert (lit + rest)[..|lit|] == lit;
  }

  /** The template regrouped so that each field is followed by the rest. */
  lemma MessageNested(account: string, room: string, message: string, file: string)
    ensures Message(account, room, message, file)
      == "[rp aid=" + (account + " to=" + (room + "-" + (message + "][pname:"
         + (account + (Caption + FileOpen) + (file + "]")))))
  {
  }

  /** Parsing a reply built from decimal identifiers recovers them. */
  lemma {:induction false} ParseMessage(account: string, room: string, message: string, file: string)
    requires IsId(account) && IsId(room) && IsId(message) && IsId(file)
    ensures Parse(Message(account, room, message, file)) == Some(Ids(account, room, message, file))
  {
    var c := Caption + FileOpen;
    var r5 := file + "]";
    var r4 := account + c + r5;
    var r3 := message + "][pname:" + r4;
    var r2 := room + "-" + r3;
    var r1 := account + " to=" + r2;
    MessageNested(account, room, message, file);
    assert AfterLiteral("[rp aid=", "[rp aid=" + r1) == Some(r1);
    DigitsThenReads(account, " to=", r2);
    DigitsThenReads(room, "-", r3);
    DigitsThenReads(message, "][pname:", r4);
    DigitsThenReads(account, c, r5);
    DigitsThenReads(file, "]", []);
    assert file + "]" + [] == r5;
  }

  /** Distinct decimal identifiers give distinct replies. */
  lemma MessageInjective(x: Ids, y: Ids)
    requires IsId(x.account) && IsId(x.room) && IsId(x.message) && IsId(x.file)
    requires IsId(y.account) && IsId(y.room) && IsId(y.message) && IsId(y.file)
    ensures Message(x.account, x.room, x.message, x.file) == Message(y.account, y.room, y.message, y.file)
            <==> x == y
  {
    ParseMessage(x.account, x.room, x.message, x.file);
    ParseMessage(y.account, y.room, y.message, y.file);
  }

  /** An identifier the handler holds that prints as digits: a non-negative
      number, or a string of digits. */
  predicate IsDecimalId(v: Js.Value) {
    (v.Num? && v.n >= 0) || (v.Str? && IsId(v.s))
  }

  /** For the identifiers Chatwork sends, the reply text determines them. */
  lemma ParseReplyText(accountId: Js.Value, roomId: Js.Value, messageId: Js.Value, fileId: Js.Value)
    requires IsDecimalId(accountId) && IsDecimalId(roomId) && IsDecimalId(messageId) && IsDecimalId(fileId)
    ensures Renders(accountId, roomId, messageId, fileId)
    ensures Parse(ReplyText(accountId, roomId, messageId, fileId))
      == Some(Ids(Js.Text(accountId), Js.Text(roomId), Js.Text(messageId), Js.Text(fileId)))
  {
    ParseMessage(Js.Text(accountId), Js.Text(roomId), Js.Text(messageId), Js.Text(fileId));
  }
}
