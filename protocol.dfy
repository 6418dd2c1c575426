/**
 * What the two ends of the socket agree on: the server's first message
 * becomes the gallery, the dialog's submission leaves the client stamped,
 * and the server's echoes never disturb the gallery.
 */
module Protocol {
  import opened Wrappers
  import opened Json
  import UseWebSocket
  import Dashboard
  import WebSocketServer

  /** The server's file list, once decoded, replaces the gallery with one item per file, in the server's order. */
  lemma FileListReachesGallery(files: seq<string>, now: string, hostname: string)
    ensures Dashboard.FileListUpdate(WebSocketServer.FileListMessage(files, now), hostname)
         == Dashboard.ListUpdate.Replace(Dashboard.ToItems(files, hostname))
  {
    StringsOfStrArray(files);
  }

  /**
   * A submitted rating as sendJsonMessage sends it: the dialog's fields are
   * kept, the submit time is replaced by the send time, and the client type
   * is added.
   */
  lemma RatingOnTheWire(selected: Option<Dashboard.Item>, rating: Option<int>, comment: string, submitted: string, sentAt: string)
    requires Dashboard.CanSubmit(selected, rating)
    ensures var wire := UseWebSocket.Stamp(Dashboard.RatingSubmission(selected, rating, comment, submitted).value, sentAt);
      && wire.Keys == {"type", "image_filename", "rating", "comment", "timestamp", "client_type"}
      && wire["type"] == JStr("image_rating")
      && wire["image_filename"] == JStr(selected.value.filename)
      && wire["rating"] == JNum(rating.value)
      && wire["comment"] == JStr(comment)
      && wire["timestamp"] == JStr(sentAt)
      && wire["client_type"] == JStr("react")
  {
  }

  /**
   * The server's reply to a client message, as the client records it, is
   * never a file list: a JSON echo is typed "echo", and a text echo that
   * does not parse is recorded as typed "text".
   */
  lemma EchoLeavesGallery(parse: string -> Option<Json>, decoded: Option<Json>, message: string, clientId: string,
                          now: string, clock: string, receivedAt: string)
    requires WebSocketServer.EchoReply(decoded, message, clientId, now, clock).TextReply? ==>
      parse(WebSocketServer.EchoReply(decoded, message, clientId, now, clock).text).None?
    ensures match WebSocketServer.EchoReply(decoded, message, clientId, now, clock)
      case JsonReply(envelope) => !Dashboard.IsFileList(envelope)
      case TextReply(text) => !Dashboard.IsFileList(UseWebSocket.Inbound(parse, text, receivedAt))
  {
  }
}
