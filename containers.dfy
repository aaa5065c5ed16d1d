/** The params of the container-creation requests: a single post's container,
    a carousel child, and the carousel aggregate. */
module Containers {
  import opened Core
  import opened Text

  /** A carousel entry `{url, media_type, alt_text?}`. */
  datatype CarouselItem = CarouselItem(url: string, mediaType: MediaType, altText: Option<string>)

  /** The keys the `options` argument of `postThread` may carry. */
  const OptionKeys: set<string> :=
    {"reply_control", "quote_post_id", "reply_to_id", "link_attachment", "alt_text"}

  /** The field that carries a media URL: `image_url` for IMAGE, `video_url` for every other kind. */
  function UrlKey(kind: MediaType): string {
    if kind == IMAGE then "image_url" else "video_url"
  }

  /** `{media_type, text, ...options}`, then the URL, when truthy, under the field its kind selects. */
  function ContainerParams(kind: MediaType, text: Option<string>, url: Option<string>, options: Record): (p: Record)
    requires options.Keys <= OptionKeys
    ensures Field(p, "media_type") == Str(MediaTypeName(kind))
    ensures "text" in p && p["text"] == OptionalStr(text)
    ensures forall k :: k in options ==> k in p && p[k] == options[k]
    ensures "image_url" in p <==> kind == IMAGE && Truthy(OptionalStr(url))
    ensures "video_url" in p <==> kind != IMAGE && Truthy(OptionalStr(url))
    ensures "image_url" in p ==> p["image_url"] == OptionalStr(url)
    ensures "video_url" in p ==> p["video_url"] == OptionalStr(url)
    ensures p.Keys == {"media_type", "text"} + options.Keys
                      + (if Truthy(OptionalStr(url)) then {UrlKey(kind)} else {})
  {
    var base := map["media_type" := Str(MediaTypeName(kind)), "text" := OptionalStr(text)] + options;
    if Truthy(OptionalStr(url)) then base[UrlKey(kind) := OptionalStr(url)] else base
  }

  /** `{media_type, is_carousel_item: true}` with the URL under the field of the item's
      kind and the alt text only when it is non-empty. */
  function ChildParams(item: CarouselItem): (p: Record)
    ensures Field(p, "media_type") == Str(MediaTypeName(item.mediaType))
    ensures Field(p, "is_carousel_item") == Bool(true)
    ensures Field(p, "image_url") == if item.mediaType == IMAGE then Str(item.url) else Undefined
    ensures Field(p, "video_url") == if item.mediaType == VIDEO then Str(item.url) else Undefined
    ensures "image_url" in p <==> item.mediaType == IMAGE
    ensures "video_url" in p <==> item.mediaType == VIDEO
    ensures "alt_text" in p <==> Truthy(OptionalStr(item.altText))
    ensures "alt_text" in p ==> p["alt_text"] == OptionalStr(item.altText)
    ensures p.Keys == {"media_type", "is_carousel_item"}
                      + (if item.mediaType == IMAGE then {"image_url"} else {})
                      + (if item.mediaType == VIDEO then {"video_url"} else {})
                      + (if Truthy(OptionalStr(item.altText)) then {"alt_text"} else {})
  {
    var p0 := map["media_type" := Str(MediaTypeName(item.mediaType)), "is_carousel_item" := Bool(true)];
    var p1 := if item.mediaType == IMAGE then p0["image_url" := Str(item.url)] else p0;
    var p2 := if item.mediaType == VIDEO then p1["video_url" := Str(item.url)] else p1;
    if Truthy(OptionalStr(item.altText)) then p2["alt_text" := OptionalStr(item.altText)] else p2
  }

  /** `{media_type: "CAROUSEL", children: ids.join(",")}` with the text only when it is non-empty. */
  function AggregateParams(ids: seq<string>, text: Option<string>): (p: Record)
    ensures Field(p, "media_type") == Str("CAROUSEL")
    ensures Field(p, "children") == Str(Join(ids, ','))
    ensures "text" in p <==> Truthy(OptionalStr(text))
    ensures "text" in p ==> p["text"] == OptionalStr(text)
    ensures p.Keys <= {"media_type", "children", "text"}
  {
    var p0 := map["media_type" := Str("CAROUSEL"), "children" := Str(Join(ids, ','))];
    if Truthy(OptionalStr(text)) then p0["text" := OptionalStr(text)] else p0
  }
}
