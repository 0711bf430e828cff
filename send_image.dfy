/**
 * `POST /send-image`: the front end uploads one image (form field
 * `imageFile`) with a `message` field; the server forwards the image to the
 * webhook through `sendToDiscord("S", buffer)` and answers with a status
 * and a JSON message. The upload middleware's parsing, the clock and the
 * webhook's answer are parameters.
 */
module SendImage {
  import opened Optional
  import Discord

  /** What the upload middleware puts in `req.file`: name, size and the bytes held in memory. */
  datatype UploadedFile = UploadedFile(originalname: string, size: nat, buffer: seq<bv8>)

  /**
   * What the handler finds in the request. The upload middleware parses
   * only multipart requests, filling `req.body` with the text fields and
   * `req.file` with the image when there is one; any other request passes
   * through with `req.body` left undefined, since no other body parser is
   * installed.
   */
  datatype Upload =
    | NotMultipart
    | Multipart(message: Option<string>, file: Option<UploadedFile>)

  /** `res.status(status).json({ message })`. */
  datatype Response = Response(status: nat, message: string)

  const EmptyFileMessage := "Empty file"
  const ReceivedMessage := "Image received successfully"
  const ServerErrorMessage := "Server error"

  /** The webhook request made for an uploaded image. */
  function ImageRequest(webhookUrl: string, file: UploadedFile, today: Discord.Date): Discord.Request {
    Discord.Request(webhookUrl, Discord.DiscordForm("S", Discord.BufferArg(file.buffer), today))
  }

  /**
   * The request for an image carries exactly two parts: its buffer as a
   * file named `capture.png`, then the date-stamped caption. Neither the
   * uploaded message nor the uploaded file name appears in it.
   */
  lemma ImageRequestForm(webhookUrl: string, file: UploadedFile, today: Discord.Date)
    ensures ImageRequest(webhookUrl, file, today) == Discord.Request(webhookUrl, [
      Discord.Part("file", Discord.BufferOf(Discord.BufferArg(file.buffer), "capture.png")),
      Discord.Part("content", Discord.TextBody(Discord.Caption(today)))])
  {
    var arg := Discord.BufferArg(file.buffer);
    assert Discord.FileParts("S", arg) == [Discord.Part("file", Discord.BufferOf(arg, "capture.png"))];
  }

  /**
   * The handler. Reading `req.body.message` throws when the request was
   * not multipart, and the catch answers 500 with nothing sent. A multipart
   * request without a file gets 400 and nothing is sent. With a file,
   * exactly one request is sent and the answer is 200 whatever the webhook
   * did, since `sendToDiscord` never fails towards its caller. The
   * `message` field is only logged.
   */
  method HandleSendImage(upload: Upload, today: Discord.Date, webhookUrl: string,
                         post: Discord.PostResult)
    returns (response: Response, sent: seq<Discord.Request>)
    ensures response.status == 500 <==> upload.NotMultipart?
    ensures response.status == 400 <==> upload.Multipart? && upload.file.None?
    ensures response.status == 200 <==> upload.Multipart? && upload.file.Some?
    ensures response.message ==
      if upload.NotMultipart? then "Server error"
      else if upload.file.None? then "Empty file"
      else "Image received successfully"
    ensures sent == if upload.Multipart? && upload.file.Some?
      then [ImageRequest(webhookUrl, upload.file.value, today)] else []
  {
    if upload.NotMultipart? {
      // `req.body.message` on an undefined body throws a TypeError
      response := Response(500, ServerErrorMessage);
      sent := [];
      return;
    }
    var message, file := upload.message, upload.file;
    if file.None? {
      response := Response(400, EmptyFileMessage);
      sent := [];
      return;
    }
    var request, log := Discord.SendToDiscord("S", Discord.BufferArg(file.value.buffer), today, webhookUrl, post);
    sent := [request];
    response := Response(200, ReceivedMessage);
  }

  /** Different images give different requests: the file part carries the buffer itself. */
  lemma ImageRequestCarriesBuffer(webhookUrl: string, a: UploadedFile, b: UploadedFile, today: Discord.Date)
    requires ImageRequest(webhookUrl, a, today) == ImageRequest(webhookUrl, b, today)
    ensures a.buffer == b.buffer
  {
    ImageRequestForm(webhookUrl, a, today);
    ImageRequestForm(webhookUrl, b, today);
  }
}
