/**
 * `sendToDiscord`: builds a multipart form (an optional file part and the
 * date-stamped caption) and posts it to the webhook. Every failure of the
 * post is caught and logged, so the call never fails towards its caller.
 * The clock and the webhook's answer are parameters.
 */
module Discord {
  import opened Text

  /** The clock readings the caption is built from: `getFullYear`, the zero-based `getMonth`, `getDate`. */
  datatype Date = Date(year: nat, month0: nat, day: nat)

  /** The untyped `file` argument: a path on disk or an in-memory buffer. */
  datatype FileArg = PathArg(path: string) | BufferArg(bytes: seq<bv8>)

  /** What a form part carries: a stream read from a path, a buffer with a file name, or text. */
  datatype PartBody =
    | StreamOf(file: FileArg)
    | BufferOf(file: FileArg, filename: string)
    | TextBody(text: string)

  datatype Part = Part(name: string, body: PartBody)

  /** The webhook POST: target URL and the form's parts in order. */
  datatype Request = Request(url: string, form: seq<Part>)

  /** How the webhook call ended. */
  datatype PostResult = Accepted | Refused(message: string)

  const CaptionSuffix := " 최신 전적 업데이트!"
  const AttachmentName := "capture.png"
  const SuccessLog := "Discord transfer complete!"
  /** The first argument of the failure `console.error`; the error message is its second. */
  const FailureLogPrefix := "Discord transmission failed : "

  /** `${year}-${month}-${day}` with the month made one-based and month and day zero-padded. */
  function DateStamp(today: Date): string {
    Stamp(NatToString(today.year), Pad2(today.month0 + 1), Pad2(today.day))
  }

  /** Year, month and day fields joined by dashes. */
  function Stamp(y: string, mm: string, dd: string): string {
    y + "-" + mm + "-" + dd
  }

  /** The text of the `content` part. */
  function Caption(today: Date): string {
    DateStamp(today) + CaptionSuffix
  }

  /** Where the pieces of `y-mm-dd` sit, for any two-character fields. */
  lemma StampPieces(y: string, mm: string, dd: string)
    requires |mm| == 2 && |dd| == 2
    ensures var c := Stamp(y, mm, dd);
      && |c| == |y| + 6
      && c[..|y|] == y
      && c[|y|] == '-' && c[|y| + 3] == '-'
      && c[|y| + 1..|y| + 3] == mm
      && c[|y| + 4..|y| + 6] == dd
  {
  }

  /** A digit string followed by a dash is fixed by where the first dash is. */
  lemma DigitsBeforeDash(ya: string, yb: string, c: string)
    requires AllDigits(ya) && AllDigits(yb)
    requires |ya| < |c| && |yb| < |c|
    requires c[..|ya|] == ya && c[..|yb|] == yb
    requires c[|ya|] == '-' && c[|yb|] == '-'
    ensures ya == yb
  {
  }

  /** The pieces of `y-mm-dd` are recovered from the whole when the year is all digits. */
  lemma StampInjective(ya: string, ma: string, da: string, yb: string, mb: string, db: string)
    requires AllDigits(ya) && AllDigits(yb)
    requires |ma| == 2 && |da| == 2 && |mb| == 2 && |db| == 2
    requires Stamp(ya, ma, da) == Stamp(yb, mb, db)
    ensures ya == yb && ma == mb && da == db
  {
    var c := Stamp(ya, ma, da);
    StampPieces(ya, ma, da);
    StampPieces(yb, mb, db);
    DigitsBeforeDash(ya, yb, c);
  }

  /** A common suffix can be cancelled. */
  lemma CancelSuffix(x: string, y: string, suffix: string)
    requires x + suffix == y + suffix
    ensures x == y
  {
    assert x == (x + suffix)[..|x|];
    assert y == (y + suffix)[..|y|];
  }

  /** Different dates (within calendar ranges) give different captions. */
  lemma CaptionInjective(a: Date, b: Date)
    requires a.month0 < 12 && 1 <= a.day <= 31
    requires b.month0 < 12 && 1 <= b.day <= 31
    requires Caption(a) == Caption(b)
    ensures a == b
  {
    CancelSuffix(DateStamp(a), DateStamp(b), CaptionSuffix);
    var ya, ma, da := NatToString(a.year), Pad2(a.month0 + 1), Pad2(a.day);
    var yb, mb, db := NatToString(b.year), Pad2(b.month0 + 1), Pad2(b.day);
    StampInjective(ya, ma, da, yb, mb, db);
    NatToStringInjective(a.year, b.year);
    Pad2Injective(a.month0 + 1, b.month0 + 1);
    Pad2Injective(a.day, b.day);
  }

  /** The file part `sendToDiscord` appends for a payload type: none, or one named `file`. */
  function FileParts(kind: string, file: FileArg): seq<Part> {
    if kind == "M" then [Part("file", StreamOf(file))]
    else if kind == "S" then [Part("file", BufferOf(file, AttachmentName))]
    else []
  }

  /** The parts `sendToDiscord(type, file)` appends, in order. */
  function DiscordForm(kind: string, file: FileArg, today: Date): seq<Part> {
    FileParts(kind, file) + [Part("content", TextBody(Caption(today)))]
  }

  /**
   * The form holds one `file` part exactly for the types "M" (streamed from
   * the path) and "S" (the buffer, named capture.png), always before the
   * single `content` part carrying the caption, which comes last.
   */
  lemma DiscordFormShape(kind: string, file: FileArg, today: Date)
    ensures var f := DiscordForm(kind, file, today);
      && |f| == (if kind == "M" || kind == "S" then 2 else 1)
      && f[|f| - 1] == Part("content", TextBody(Caption(today)))
      && (forall i :: 0 <= i < |f| - 1 ==> f[i].name == "file")
      && (kind == "M" ==> f[0].body == StreamOf(file))
      && (kind == "S" ==> f[0].body == BufferOf(file, "capture.png"))
  {
  }

  /** A multipart form the caller appends parts to. */
  class FormData {
    var parts: seq<Part>

    constructor ()
      ensures parts == []
    {
      parts := [];
    }

    method Append(name: string, body: PartBody)
      modifies this
      ensures parts == old(parts) + [Part(name, body)]
    {
      parts := parts + [Part(name, body)];
    }
  }

  /**
   * `sendToDiscord(type, file)`: resolves in every case; what it posted and
   * the line it logged are returned. The console joins its arguments with a
   * space, so the failure line has two spaces before the error message.
   */
  method SendToDiscord(kind: string, file: FileArg, today: Date, webhookUrl: string, post: PostResult)
    returns (request: Request, log: string)
    ensures request == Request(webhookUrl, DiscordForm(kind, file, today))
    ensures log == if post.Accepted? then SuccessLog else FailureLogPrefix + " " + post.message
  {
    var form := new FormData();
    if kind == "M" {
      form.Append("file", StreamOf(file));
    } else if kind == "S" {
      form.Append("file", BufferOf(file, AttachmentName));
    }
    assert form.parts == FileParts(kind, file);
    form.Append("content", TextBody(Caption(today)));
    request := Request(webhookUrl, form.parts);
    match post
    case Accepted =>
      log := SuccessLog;
    case Refused(message) =>
      log := FailureLogPrefix + " " + message;
  }
}
