/** The media files the browser hands over, and the elements that play them. */
module Media {

  /** The kind of a file, as the application reads it off the prefix of its MIME type. */
  datatype Kind = Image | Video | Audio | Other

  /**
   * The kind a MIME type stands for. The player tests the prefixes in the order
   * video, audio, image; the filter only ever asks about "image" and "video".
   * The three prefixes exclude each other, so the order does not matter.
   */
  function Classify(mimeType: string): (k: Kind)
    ensures k == Image <==> "image" <= mimeType
    ensures k == Video <==> "video" <= mimeType
    ensures k == Audio <==> "audio" <= mimeType
    ensures k == Other <==> !("image" <= mimeType || "video" <= mimeType || "audio" <= mimeType)
  {
    // The prefixes differ in their first letter.
    assert "image" <= mimeType ==> mimeType[0] == 'i';
    assert "video" <= mimeType ==> mimeType[0] == 'v';
    assert "audio" <= mimeType ==> mimeType[0] == 'a';
    if "video" <= mimeType then Video
    else if "audio" <= mimeType then Audio
    else if "image" <= mimeType then Image
    else Other
  }

  /**
   * A file of the selected folder. It is an object: two items are the same
   * item only when they are the same reference, as with `===`.
   */
  class MediaItem {
    const name: string
    const mimeType: string
    /**
     * Fixed from the MIME type when the item is made: `kind == Image` exactly
     * when `type.startsWith("image")`, and so on.
     */
    const kind: Kind

    constructor (name: string, mimeType: string)
      ensures this.name == name && this.mimeType == mimeType && kind == Classify(mimeType)
    {
      this.name := name;
      this.mimeType := mimeType;
      this.kind := Classify(mimeType);
    }
  }

  /** A `<video>` or `<audio>` element; only its tag and its volume matter here. */
  class MediaElement {
    const tagName: Kind
    var volume: real

    constructor (tagName: Kind, volume: real)
      ensures this.tagName == tagName && this.volume == volume
    {
      this.tagName := tagName;
      this.volume := volume;
    }
  }

  /** The test `tagName === "VIDEO" || tagName === "AUDIO"` guarding every volume write. */
  predicate Playable(element: MediaElement?)
    ensures Playable(element) <==> element != null && element.tagName !in {Image, Other}
  {
    element != null && (element.tagName == Video || element.tagName == Audio)
  }
}
