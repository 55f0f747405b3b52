/**
 * The admin "Add New Product" form: its field map, the selling-mode radio
 * buttons and the `is_auction` code they submit, and the media list that
 * uploads append to and the remove buttons cut from.
 */
module NewProduct {
  import opened Wrappers
  import opened Domain

  /** A form field's value: a checkbox flag, typed text, or the initial number. */
  datatype FormValue = Flag(b: bool) | Text(s: string) | Number(n: int)

  /** JavaScript truthiness of a field value. */
  predicate Truthy(v: FormValue) {
    match v
    case Flag(b) => b
    case Text(s) => s != ""
    case Number(n) => n != 0
  }

  /** `formData[name]` is truthy; a field never set reads as `undefined`. */
  predicate FieldTruthy(fields: map<string, FormValue>, name: string) {
    name in fields && Truthy(fields[name])
  }

  /** `formData.selling_mode === '2'`. */
  predicate ShowcaseSelected(fields: map<string, FormValue>) {
    "selling_mode" in fields && fields["selling_mode"] == Text("2")
  }

  /** The `is_auction` value sent on submit: showcase, else the auction flag, else direct buy. */
  function EncodeIsAuction(fields: map<string, FormValue>): (r: int)
    ensures r in {DirectBuy, Auction, Showcase}
    ensures r == Showcase <==> ShowcaseSelected(fields)
    ensures r == Auction <==> !ShowcaseSelected(fields) && FieldTruthy(fields, "is_auction")
    ensures r == DirectBuy <==> !ShowcaseSelected(fields) && !FieldTruthy(fields, "is_auction")
  {
    if ShowcaseSelected(fields) then Showcase
    else if FieldTruthy(fields, "is_auction") then Auction
    else DirectBuy
  }

  /** The three radio buttons of the selling-mode group. */
  datatype SellingChoice = ChooseDirectBuy | ChooseAuction | ChooseShowcase

  /** The code each radio button stands for. */
  function ChoiceCode(c: SellingChoice): int {
    match c
    case ChooseDirectBuy => DirectBuy
    case ChooseAuction => Auction
    case ChooseShowcase => Showcase
  }

  /** The `(is_auction, selling_mode)` pair each radio's handler writes. */
  function RadioFields(fields: map<string, FormValue>, c: SellingChoice): map<string, FormValue> {
    match c
    case ChooseDirectBuy => fields["is_auction" := Flag(false)]["selling_mode" := Text("0")]
    case ChooseAuction => fields["is_auction" := Flag(true)]["selling_mode" := Text("1")]
    case ChooseShowcase => fields["is_auction" := Flag(false)]["selling_mode" := Text("2")]
  }

  /** Whether a radio button renders as checked. */
  predicate RadioChecked(fields: map<string, FormValue>, c: SellingChoice) {
    match c
    case ChooseDirectBuy => !FieldTruthy(fields, "is_auction") && !ShowcaseSelected(fields)
    case ChooseAuction => FieldTruthy(fields, "is_auction")
    case ChooseShowcase => ShowcaseSelected(fields)
  }

  /**
   * After clicking a radio button, the submitted code is that button's
   * mode, and exactly that button shows as checked.
   */
  lemma RadioEncodesChoice(fields: map<string, FormValue>, c: SellingChoice)
    ensures EncodeIsAuction(RadioFields(fields, c)) == ChoiceCode(c)
    ensures forall d :: RadioChecked(RadioFields(fields, c), d) <==> d == c
  {
    var f := RadioFields(fields, c);
    forall d ensures RadioChecked(f, d) <==> d == c {
      match c
      case ChooseDirectBuy => assert f["selling_mode"] == Text("0");
      case ChooseAuction => assert f["selling_mode"] == Text("1");
      case ChooseShowcase => assert f["selling_mode"] == Text("2");
    }
  }

  /** The form as first rendered. */
  function InitialFields(): (f: map<string, FormValue>)
    ensures EncodeIsAuction(f) == DirectBuy && RadioChecked(f, ChooseDirectBuy)
  {
    map["title" := Text(""), "description" := Text(""), "price" := Text(""), "category" := Text("Coins"),
        "is_auction" := Flag(false), "selling_mode" := Text("0"), "auction_end_time" := Text(""),
        "stock" := Number(1)]
  }

  /** What an input event carries: a checkbox's `checked`, or any other input's `value`. */
  datatype InputEvent = Checkbox(checked: bool) | Value(value: string)

  function StoredValue(e: InputEvent): FormValue {
    match e
    case Checkbox(c) => Flag(c)
    case Value(v) => Text(v)
  }

  /**
   * `media.filter((_, i) => i !== index)` over the part of the list that
   * starts at position `offset`.
   */
  function KeepOthers(media: seq<MediaItem>, index: int, offset: int): (r: seq<MediaItem>)
    ensures offset <= index < offset + |media| ==> r == media[..index - offset] + media[index - offset + 1..]
    ensures !(offset <= index < offset + |media|) ==> r == media
    decreases |media|
  {
    if media == [] then []
    else
      var rest := KeepOthers(media[1..], index, offset + 1);
      if offset == index then
        assert rest == media[1..];
        rest
      else
        assert offset < index < offset + |media| ==> media[1..][..index - offset - 1] == media[1..index - offset];
        assert offset < index < offset + |media| ==> media[1..][index - offset..] == media[index - offset + 1..];
        [media[0]] + rest
  }

  /** `removeMedia(index)`: exactly the item at `index` goes, the others keep their order. */
  function RemoveMedia(media: seq<MediaItem>, index: int): (r: seq<MediaItem>)
    ensures 0 <= index < |media| ==> |r| == |media| - 1 && r == media[..index] + media[index + 1..]
    ensures !(0 <= index < |media|) ==> r == media
  {
    KeepOthers(media, index, 0)
  }

  /** A file's media type: video exactly when its MIME type starts with `video/`. */
  function KindOf(mimeType: string): (k: MediaKind)
    ensures k == Video <==> "video/" <= mimeType
  {
    if |mimeType| >= 6 && mimeType[..6] == "video/" then Video else Image
  }

  /**
   * One chosen file and what its upload request came back with: the stored
   * url when the upload route reported success, `None` when it reported
   * failure or the request threw.
   */
  datatype UploadAttempt = UploadAttempt(mimeType: string, url: Option<string>)

  /** The media item an attempt contributes, if any. */
  function ItemFrom(a: UploadAttempt): seq<MediaItem> {
    if a.url.Some? then [MediaItem(a.url.value, KindOf(a.mimeType))] else []
  }

  /** `newMedia` after the upload loop has gone over `attempts`. */
  function Uploaded(attempts: seq<UploadAttempt>): (r: seq<MediaItem>)
    ensures |r| <= |attempts|
  {
    if attempts == [] then []
    else Uploaded(attempts[..|attempts| - 1]) + ItemFrom(attempts[|attempts| - 1])
  }

  /** Successful uploads come out in file order: the items of a longer file list extend those of its prefix. */
  lemma {:induction false} UploadedOfConcat(a: seq<UploadAttempt>, b: seq<UploadAttempt>)
    ensures Uploaded(a + b) == Uploaded(a) + Uploaded(b)
    decreases |b|
  {
    if b == [] {
      assert a + b == a;
    } else {
      var b0 := b[..|b| - 1];
      assert (a + b)[..|a + b| - 1] == a + b0;
      UploadedOfConcat(a, b0);
    }
  }

  /** The item a successful attempt yields. */
  function ItemOf(a: UploadAttempt): MediaItem
    requires a.url.Some?
  {
    MediaItem(a.url.value, KindOf(a.mimeType))
  }

  /**
   * Every successful upload yields its item, typed by its MIME type, and
   * every item comes from a successful upload; failures add nothing.
   */
  lemma {:induction false} UploadedFromSuccesses(attempts: seq<UploadAttempt>)
    ensures forall i :: 0 <= i < |attempts| && attempts[i].url.Some? ==> ItemOf(attempts[i]) in Uploaded(attempts)
    ensures forall m :: m in Uploaded(attempts) ==>
      exists i :: 0 <= i < |attempts| && attempts[i].url.Some? && ItemOf(attempts[i]) == m
    ensures (forall i :: 0 <= i < |attempts| ==> attempts[i].url.None?) ==> Uploaded(attempts) == []
  {
    if attempts != [] {
      var n := |attempts|;
      var init := attempts[..n - 1];
      var last := attempts[n - 1];
      UploadedFromSuccesses(init);
      assert Uploaded(attempts) == Uploaded(init) + ItemFrom(last);
      forall i | 0 <= i < n && attempts[i].url.Some? ensures ItemOf(attempts[i]) in Uploaded(attempts) {
        if i < n - 1 {
          assert init[i] == attempts[i];
        }
      }
      forall m | m in Uploaded(attempts)
        ensures exists i :: 0 <= i < n && attempts[i].url.Some? && ItemOf(attempts[i]) == m
      {
        if m in Uploaded(init) {
          var i :| 0 <= i < n - 1 && init[i].url.Some? && ItemOf(init[i]) == m;
          assert attempts[i] == init[i];
        } else {
          assert m in ItemFrom(last);
          assert attempts[n - 1].url.Some? && ItemOf(attempts[n - 1]) == m;
        }
      }
      if forall i :: 0 <= i < n ==> attempts[i].url.None? {
        assert forall i :: 0 <= i < n - 1 ==> init[i] == attempts[i];
      }
    }
  }

  /** The new-product form's state. */
  class ProductForm {
    var fields: map<string, FormValue>
    var media: seq<MediaItem>
    var loading: bool

    constructor ()
      ensures fields == InitialFields() && media == [] && !loading
    {
      fields := InitialFields();
      media := [];
      loading := false;
    }

    /** `handleChange`: the named field takes the checkbox flag or the typed value; no other field changes. */
    method HandleChange(name: string, e: InputEvent)
      modifies this`fields
      ensures name in fields && fields[name] == StoredValue(e)
      ensures forall other :: other != name ==> (other in fields <==> other in old(fields))
      ensures forall other :: other != name && other in fields ==> fields[other] == old(fields)[other]
    {
      fields := fields[name := StoredValue(e)];
    }

    /** The `onChange` of one of the three selling-mode radio buttons. */
    method SelectMode(c: SellingChoice)
      modifies this`fields
      ensures fields == RadioFields(old(fields), c)
      ensures EncodeIsAuction(fields) == ChoiceCode(c)
    {
      match c {
        case ChooseDirectBuy =>
          fields := fields["is_auction" := Flag(false)]["selling_mode" := Text("0")];
        case ChooseAuction =>
          fields := fields["is_auction" := Flag(true)]["selling_mode" := Text("1")];
        case ChooseShowcase =>
          fields := fields["is_auction" := Flag(false)]["selling_mode" := Text("2")];
      }
      RadioEncodesChoice(old(fields), c);
    }

    /** A remove button under a media preview. */
    method HandleRemoveMedia(index: int)
      modifies this`media
      ensures media == RemoveMedia(old(media), index)
    {
      media := RemoveMedia(media, index);
    }

    /**
     * `handleFileUpload`: with no files, nothing happens; otherwise each file
     * is uploaded in turn, the successes are collected in file order, and they
     * are appended after the media already in the form.
     */
    method HandleFileUpload(attempts: seq<UploadAttempt>)
      modifies this`media, this`loading
      ensures attempts == [] ==> media == old(media) && loading == old(loading)
      ensures attempts != [] ==> !loading
      ensures media == old(media) + Uploaded(attempts)
    {
      if |attempts| == 0 {
        return;
      }
      loading := true;
      var newMedia: seq<MediaItem> := [];
      var i := 0;
      while i < |attempts|
        invariant 0 <= i <= |attempts|
        invariant newMedia == Uploaded(attempts[..i])
      {
        assert attempts[..i + 1][..i] == attempts[..i];
        var a := attempts[i];
        if a.url.Some? {
          newMedia := newMedia + [MediaItem(a.url.value, KindOf(a.mimeType))];
        }
        i := i + 1;
      }
      assert attempts[..i] == attempts;
      media := media + newMedia;
      loading := false;
    }

  }
}
