/**
 * The gallery component (Dashboard): the item list built from a `file_list`
 * message, and the rating dialog, whose submit sends one `image_rating`
 * message through the send function it is given and then resets.
 *
 * The send function is abstract: the component records every object it
 * hands to it, in order, in `sent`.
 */
module Dashboard {
  import opened Wrappers
  import opened Json

  /** A gallery entry: a sequence number, the server-side filename and the image's address. */
  datatype Item = Item(id: int, filename: string, path: string)

  /** The address of an image: the static file server on port 8766 of the page's own host. */
  function Locator(hostname: string, filename: string): string {
    "http://" + hostname + ":8766/pics/" + filename
  }

  /** The `files.map` of the file-list effect: one item per name, in order, numbered from 1. */
  function ToItems(files: seq<string>, hostname: string): (items: seq<Item>)
    ensures |items| == |files|
    ensures forall i :: 0 <= i < |items| ==>
      items[i].filename == files[i] && items[i].path == Locator(hostname, items[i].filename)
  {
    seq(|files|, i requires 0 <= i < |files| => Item(i + 1, files[i], Locator(hostname, files[i])))
  }

  /** The filenames of a list of items. */
  function Filenames(items: seq<Item>): seq<string> {
    seq(|items|, i requires 0 <= i < |items| => items[i].filename)
  }

  function Ids(items: seq<Item>): set<int> {
    set i | 0 <= i < |items| :: items[i].id
  }

  /** The items keep the message's names exactly: reading the filenames back gives the list that came in. */
  lemma FilenamesOfItems(files: seq<string>, hostname: string)
    ensures Filenames(ToItems(files, hostname)) == files
  {
  }

  /** Item ids are pairwise distinct and are exactly 1..n. */
  lemma ItemIdsAreOneToN(files: seq<string>, hostname: string)
    ensures forall i, j :: 0 <= i < j < |files| ==> ToItems(files, hostname)[i].id != ToItems(files, hostname)[j].id
    ensures forall k :: k in Ids(ToItems(files, hostname)) <==> 1 <= k <= |files|
  {
    var items := ToItems(files, hostname);
    forall k | 1 <= k <= |files|
      ensures k in Ids(items)
    {
      assert items[k - 1].id == k;
    }
  }

  /** What a new `lastMessage` does to the item list. */
  datatype ListUpdate =
    | Keep                          // not a file list: the list stays as it is
    | Replace(items: seq<Item>)     // a file list: the list is replaced wholesale
    | Malformed                     // a file list whose `files` is not a list of names

  /** A message the file-list effect acts on: a truthy value whose `type` is "file_list". */
  predicate IsFileList(message: Json) {
    Truthy(message) && Field(message, "type") == Some(JStr("file_list"))
  }

  /** The file-list effect's decision for `lastMessage`. */
  function FileListUpdate(lastMessage: Json, hostname: string): (u: ListUpdate)
    ensures u.Keep? <==> !IsFileList(lastMessage)
    ensures u.Replace? ==>
      && Field(lastMessage, "files").Some?
      && Strings(Field(lastMessage, "files").value).Some?
      && Filenames(u.items) == Strings(Field(lastMessage, "files").value).value
      && (forall i :: 0 <= i < |u.items| ==>
            u.items[i].id == i + 1 && u.items[i].path == Locator(hostname, u.items[i].filename))
    ensures u.Malformed? <==>
      IsFileList(lastMessage) &&
      (Field(lastMessage, "files").None? || Strings(Field(lastMessage, "files").value).None?)
  {
    if !IsFileList(lastMessage) then Keep
    else
      match Field(lastMessage, "files")
      case None => Malformed
      case Some(files) =>
        match Strings(files)
        case None => Malformed
        case Some(names) => FilenamesOfItems(names, hostname); Replace(ToItems(names, hostname))
  }

  /** The submit gate: an image is open and the rating is a positive number (a cleared widget reports `null`). */
  predicate CanSubmit(selected: Option<Item>, rating: Option<int>) {
    selected.Some? && rating.Some? && rating.value > 0
  }

  /** The object handleSubmitRating passes to the send function, or `None` when the gate is shut. */
  function RatingSubmission(selected: Option<Item>, rating: Option<int>, comment: string, now: string): (m: Option<map<string, Json>>)
    ensures m.Some? <==> CanSubmit(selected, rating)
    ensures m.Some? ==>
      && m.value.Keys == {"type", "image_filename", "rating", "comment", "timestamp"}
      && m.value["type"] == JStr("image_rating")
      && m.value["image_filename"] == JStr(selected.value.filename)
      && m.value["rating"] == JNum(rating.value)
      && m.value["comment"] == JStr(comment)
  {
    if CanSubmit(selected, rating) then
      Some(map["type" := JStr("image_rating"),
               "image_filename" := JStr(selected.value.filename),
               "rating" := JNum(rating.value),
               "comment" := JStr(comment),
               "timestamp" := JStr(now)])
    else None
  }

  /** getStatusColor: "success" exactly when connected, "default" otherwise. */
  function StatusColor(isConnected: bool): (color: string)
    ensures color == "success" <==> isConnected
    ensures color == "default" <==> !isConnected
  {
    if isConnected then "success" else "default"
  }

  class Dashboard {
    var selectedImage: Option<Item>
    var images: seq<Item>
    /** The dialog's rating; `None` is the `null` the rating widget reports when cleared. */
    var rating: Option<int>
    var comment: string
    /** Every object handed to the send function, in order. */
    var sent: seq<map<string, Json>>

    /** Items are numbered 1..n in order; the rating widget offers 1 to 5 stars, and 0 is "none yet". */
    ghost predicate Valid()
      reads this
    {
      && (forall i :: 0 <= i < |images| ==> images[i].id == i + 1)
      && (rating.Some? ==> 0 <= rating.value <= 5)
    }

    constructor ()
      ensures Valid()
      ensures selectedImage.None? && images == [] && rating == Some(0) && comment == "" && sent == []
    {
      selectedImage := None;
      images := [];
      rating := Some(0);
      comment := "";
      sent := [];
    }

    /** The file-list effect, run when `lastMessage` changes: a file list replaces the items; anything else leaves them. */
    method OnLastMessage(lastMessage: Json, hostname: string)
      requires Valid()
      modifies this`images
      ensures Valid()
      ensures images == (if FileListUpdate(lastMessage, hostname).Replace?
                         then FileListUpdate(lastMessage, hostname).items else old(images))
      ensures !IsFileList(lastMessage) ==> images == old(images)
    {
      var update := FileListUpdate(lastMessage, hostname);
      if update.Replace? {
        images := update.items;
      }
    }

    /** handleImageClick: opens the image with a fresh rating and comment. */
    method ImageClick(image: Item)
      requires Valid()
      modifies this`selectedImage, this`rating, this`comment
      ensures Valid()
      ensures selectedImage == Some(image) && rating == Some(0) && comment == ""
    {
      selectedImage := Some(image);
      rating := Some(0);
      comment := "";
    }

    /** handleCloseDialog: nothing selected, rating 0, empty comment. */
    method CloseDialog()
      requires Valid()
      modifies this`selectedImage, this`rating, this`comment
      ensures Valid()
      ensures selectedImage.None? && rating == Some(0) && comment == ""
    {
      selectedImage := None;
      rating := Some(0);
      comment := "";
    }

    /** The rating widget's change handler: a star count from 1 to 5, or `null` when cleared. */
    method SetRating(newValue: Option<int>)
      requires Valid()
      requires newValue.Some? ==> 1 <= newValue.value <= 5
      modifies this`rating
      ensures Valid()
      ensures rating == newValue
    {
      rating := newValue;
    }

    /** The comment field's change handler. */
    method SetComment(text: string)
      requires Valid()
      modifies this`comment
      ensures Valid()
      ensures comment == text
    {
      comment := text;
    }

    /**
     * handleSubmitRating: with an image open and a positive rating, sends
     * exactly one `image_rating` object and closes the dialog; otherwise
     * sends nothing and changes nothing.
     */
    method SubmitRating(now: string)
      requires Valid()
      modifies this`sent, this`selectedImage, this`rating, this`comment
      ensures Valid()
      ensures CanSubmit(old(selectedImage), old(rating)) ==>
        && sent == old(sent) + [RatingSubmission(old(selectedImage), old(rating), old(comment), now).value]
        && selectedImage.None? && rating == Some(0) && comment == ""
      ensures !CanSubmit(old(selectedImage), old(rating)) ==>
        && sent == old(sent)
        && selectedImage == old(selectedImage) && rating == old(rating) && comment == old(comment)
    {
      var submission := RatingSubmission(selectedImage, rating, comment, now);
      if submission.Some? {
        sent := sent + [submission.value];
        CloseDialog();
      }
    }

    /**
     * handleSubmitRating as App renders the component, with no send function
     * among its props: with the gate open, calling the missing
     * `sendJsonMessage` throws before the dialog is closed, so nothing is sent
     * and the dialog stays open. `threw` says whether that happened.
     */
    method SubmitRatingUnwired() returns (threw: bool)
      requires Valid()
      ensures threw <==> CanSubmit(selectedImage, rating)
    {
      threw := CanSubmit(selectedImage, rating);
    }
  }

  /** As App wires it, a rating that passes the gate throws, is never sent, and leaves the dialog open. */
  method UnwiredSubmitKeepsDialogOpen(image: Item)
  {
    var d := new Dashboard();
    d.ImageClick(image);
    d.SetRating(Some(4));
    var threw := d.SubmitRatingUnwired();
    assert threw && d.sent == [] && d.selectedImage == Some(image) && d.rating == Some(4);
  }

  /** Open, rate, submit: one message with the image's name; a second submit sends nothing. */
  method RateOnce(hostname: string)
  {
    var d := new Dashboard();
    var message := JObj(map["type" := JStr("file_list"), "files" := StrArray(["cat.png", "dog.png"])]);
    StringsOfStrArray(["cat.png", "dog.png"]);
    d.OnLastMessage(message, hostname);
    assert |d.images| == 2 && d.images[1] == Item(2, "dog.png", Locator(hostname, "dog.png"));
    d.ImageClick(d.images[1]);
    d.SubmitRating("t0");
    assert d.sent == [];
    d.SetRating(Some(4));
    d.SetComment("nice");
    d.SubmitRating("t1");
    assert |d.sent| == 1 && d.sent[0]["image_filename"] == JStr("dog.png") && d.sent[0]["rating"] == JNum(4);
    d.SubmitRating("t2");
    assert |d.sent| == 1;
  }
}
