/**
 * A classified ad as the bot renders it: the HTML caption built by
 * `format_listing` from the answers a user gave, and the layout of the
 * photos and videos that carry it (one item on its own, several as an
 * album whose first item holds the caption).
 */
module Listing {
  import opened Optional
  import opened Strings

  /** The text answers of a submission, by key (the string entries of `user_data`). */
  type Fields = map<string, string>

  /** `data.get(key, '—')`: an absent key shows a dash, a present one its value, even when empty. */
  function Field(d: Fields, key: string): string {
    if key in d then d[key] else "—"
  }

  /** Python truthiness of `data.get(key)`: present and non-empty. */
  predicate HasValue(d: Fields, key: string) {
    key in d && d[key] != []
  }

  /** A hashtag: `#` and the value with every space turned into `_`. */
  function Tag(v: string): string {
    "#" + ReplaceChar(v, ' ', '_')
  }

  /** The fields that give hashtags, in order. */
  const TagKeys: seq<string> := ["category", "size", "condition", "city"]

  /** The hashtags of those of `keys` that have a value, in the order of `keys`. */
  function TagsOf(d: Fields, keys: seq<string>): seq<string> {
    if keys == [] then []
    else (if HasValue(d, keys[0]) then [Tag(d[keys[0]])] else []) + TagsOf(d, keys[1..])
  }

  /** The hashtags of category, size, condition and city, in that order, for those that have a value. */
  function Tags(d: Fields): seq<string> {
    TagsOf(d, TagKeys)
  }

  /** The first line of the listing: the hashtags separated by single spaces, or nothing. */
  function TagsLine(d: Fields): string {
    var tags := Tags(d);
    if tags != [] then Join(tags, ' ') else ""
  }

  /** `format_listing`. */
  function FormatListing(d: Fields): string {
    TagsLine(d) + "\n" +
    "\n" +
    FieldLine("Товар", Field(d, "item")) + "\n" +
    FieldLine("Размер", Field(d, "size")) + "\n" +
    FieldLine("Состояние", Field(d, "condition")) + "\n" +
    FieldLine("Цена", Field(d, "price")) + "\n" +
    FieldLine("Город", Field(d, "city")) + "\n" +
    FieldLine("Доставка", Field(d, "delivery")) + "\n" +
    FieldLine("Контакт", Field(d, "contact")) + "\n" +
    "\n" +
    FieldLine("Описание", Field(d, "description"))
  }

  /** One labelled line: the label in bold, then the value. */
  function FieldLine(name: string, value: string): string {
    "<b>" + name + ":</b> " + value
  }

  // ---------------------------------------------------------------------------
  // The listing's layout, line by line
  // ---------------------------------------------------------------------------

  /**
   * The lines of a listing: the tag line, a blank line, the seven labelled
   * fields Товар, Размер, Состояние, Цена, Город, Доставка and Контакт, a
   * blank line and Описание.
   */
  function Lines(d: Fields): seq<string> {
    [TagsLine(d), "",
     FieldLine("Товар", Field(d, "item")),
     FieldLine("Размер", Field(d, "size")),
     FieldLine("Состояние", Field(d, "condition")),
     FieldLine("Цена", Field(d, "price")),
     FieldLine("Город", Field(d, "city")),
     FieldLine("Доставка", Field(d, "delivery")),
     FieldLine("Контакт", Field(d, "contact")),
     "",
     FieldLine("Описание", Field(d, "description"))]
  }

  /** No answer spans several lines. */
  predicate SingleLineValues(d: Fields) {
    forall k :: k in d ==> '\n' !in d[k]
  }

  /** A hashtag starts with `#`, holds no space, and spans one line when its value does. */
  lemma TagIsWord(v: string)
    ensures |Tag(v)| > 0 && Tag(v)[0] == '#' && ' ' !in Tag(v)
    ensures '\n' !in v ==> '\n' !in Tag(v)
  {
    var r := ReplaceChar(v, ' ', '_');
    assert Tag(v) == "#" + r;
    assert forall j :: 0 < j < |Tag(v)| ==> Tag(v)[j] == r[j - 1];
    if '\n' !in v {
      assert forall j :: 0 <= j < |r| ==> r[j] != '\n';
    }
  }

  /** Every hashtag starts with `#` and holds no space; with single-line answers, none spans two lines. */
  lemma TagsAreWords(d: Fields)
    ensures forall t :: t in Tags(d) ==> |t| > 0 && t[0] == '#' && ' ' !in t
    ensures SingleLineValues(d) ==> forall t :: t in Tags(d) ==> '\n' !in t
  {
    TagsOfAreWords(d, TagKeys);
  }

  lemma {:induction false} TagsOfAreWords(d: Fields, keys: seq<string>)
    ensures forall t :: t in TagsOf(d, keys) ==> |t| > 0 && t[0] == '#' && ' ' !in t
    ensures SingleLineValues(d) ==> forall t :: t in TagsOf(d, keys) ==> '\n' !in t
  {
    if keys != [] {
      TagsOfAreWords(d, keys[1..]);
      if keys[0] in d {
        TagIsWord(d[keys[0]]);
      }
    }
  }

  /** The hashtags are exactly those of the listed fields that have a value. */
  lemma {:induction false} TagsOfMember(d: Fields, keys: seq<string>, t: string)
    ensures t in TagsOf(d, keys) <==> exists i :: 0 <= i < |keys| && HasValue(d, keys[i]) && t == Tag(d[keys[i]])
  {
    if keys != [] {
      var rest := keys[1..];
      assert t in TagsOf(d, rest) <==> exists i :: 0 <= i < |rest| && HasValue(d, rest[i]) && t == Tag(d[rest[i]]) by {
        TagsOfMember(d, rest, t);
      }
      if exists i :: 0 <= i < |keys| && HasValue(d, keys[i]) && t == Tag(d[keys[i]]) {
        var i :| 0 <= i < |keys| && HasValue(d, keys[i]) && t == Tag(d[keys[i]]);
        if i > 0 {
          assert rest[i - 1] == keys[i];
        }
      }
      if exists i :: 0 <= i < |rest| && HasValue(d, rest[i]) && t == Tag(d[rest[i]]) {
        var i :| 0 <= i < |rest| && HasValue(d, rest[i]) && t == Tag(d[rest[i]]);
        assert keys[i + 1] == rest[i];
      }
    }
  }

  /** At most four hashtags, one per tag field that has a value, and none when no tag field has one. */
  lemma {:induction false} TagsOfCount(d: Fields, keys: seq<string>)
    ensures |TagsOf(d, keys)| <= |keys|
    ensures TagsOf(d, keys) == [] <==> forall i :: 0 <= i < |keys| ==> !HasValue(d, keys[i])
  {
    if keys != [] {
      TagsOfCount(d, keys[1..]);
      assert forall i :: 1 <= i < |keys| ==> keys[i] == keys[1..][i - 1];
    }
  }

  /**
   * The tag line is empty exactly when no tag field has a value; otherwise
   * splitting it at spaces gives back the hashtags, in order.
   */
  lemma TagsLineWords(d: Fields)
    ensures TagsLine(d) == [] <==> Tags(d) == []
    ensures Tags(d) != [] ==> Split(TagsLine(d), ' ') == Tags(d)
  {
    var tags := Tags(d);
    if tags != [] {
      TagsAreWords(d);
      SplitJoin(tags, ' ');
      assert tags[0] != [];
      assert TagsLine(d)[0] == '#';
    }
  }

  lemma {:induction false} JoinNoSep(parts: seq<string>, sep: char, c: char)
    requires c != sep
    requires forall p :: p in parts ==> c !in p
    ensures c !in Join(parts, sep)
  {
    if |parts| > 1 {
      JoinNoSep(parts[1..], sep, c);
      assert c !in parts[0];
    }
  }

  /** Splitting at a line break before a last line `l` adds `l` after the lines before it. */
  lemma SplitLastLine(pre: string, l: string)
    requires '\n' !in l
    ensures Split(pre + "\n" + l, '\n') == Split(pre, '\n') + [l]
  {
    SplitConcat(pre, l, '\n');
    SplitPrefix(l, [], '\n');
    assert l + [] == l;
  }

  /** Eleven lines laid out as `format_listing` lays them out split back into those lines. */
  lemma SplitListingLayout(t: string, l0: string, l1: string, l2: string, l3: string,
                           l4: string, l5: string, l6: string, desc: string)
    requires '\n' !in t && '\n' !in l0 && '\n' !in l1 && '\n' !in l2 && '\n' !in l3
    requires '\n' !in l4 && '\n' !in l5 && '\n' !in l6 && '\n' !in desc
    ensures Split(t + "\n" + "\n" + l0 + "\n" + l1 + "\n" + l2 + "\n" + l3 + "\n" + l4 + "\n" +
                  l5 + "\n" + l6 + "\n" + "\n" + desc, '\n')
         == [t, "", l0, l1, l2, l3, l4, l5, l6, "", desc]
  {
    SplitPrefix(t, [], '\n');
    assert t + [] == t;
    var x1 := t + "\n";
    assert Split(x1, '\n') == [t, ""] by {
      assert x1 == t + "\n" + "";
      SplitLastLine(t, "");
    }
    var x3 := x1 + "\n" + l0;
    assert Split(x3, '\n') == [t, "", l0] by { SplitLastLine(x1, l0); }
    var x5 := x3 + "\n" + l1;
    assert Split(x5, '\n') == [t, "", l0, l1] by { SplitLastLine(x3, l1); }
    var x7 := x5 + "\n" + l2;
    assert Split(x7, '\n') == [t, "", l0, l1, l2] by { SplitLastLine(x5, l2); }
    var x9 := x7 + "\n" + l3;
    assert Split(x9, '\n') == [t, "", l0, l1, l2, l3] by { SplitLastLine(x7, l3); }
    var x11 := x9 + "\n" + l4;
    assert Split(x11, '\n') == [t, "", l0, l1, l2, l3, l4] by { SplitLastLine(x9, l4); }
    var x13 := x11 + "\n" + l5;
    assert Split(x13, '\n') == [t, "", l0, l1, l2, l3, l4, l5] by { SplitLastLine(x11, l5); }
    var x15 := x13 + "\n" + l6;
    assert Split(x15, '\n') == [t, "", l0, l1, l2, l3, l4, l5, l6] by { SplitLastLine(x13, l6); }
    var x16 := x15 + "\n";
    assert Split(x16, '\n') == [t, "", l0, l1, l2, l3, l4, l5, l6, ""] by {
      assert x16 == x15 + "\n" + "";
      SplitLastLine(x15, "");
    }
    SplitLastLine(x16, desc);
  }

  /** Eleven lines joined with line breaks are laid out as `format_listing` lays them out. */
  lemma JoinListingLayout(t: string, l0: string, l1: string, l2: string, l3: string,
                          l4: string, l5: string, l6: string, desc: string)
    ensures Join([t, "", l0, l1, l2, l3, l4, l5, l6, "", desc], '\n')
         == t + "\n" + "\n" + l0 + "\n" + l1 + "\n" + l2 + "\n" + l3 + "\n" + l4 + "\n" +
            l5 + "\n" + l6 + "\n" + "\n" + desc
  {
    var p5 := [t, "", l0, l1, l2, l3];
    assert Join(p5, '\n') == t + "\n" + "\n" + l0 + "\n" + l1 + "\n" + l2 + "\n" + l3 by {
      JoinListingHead(t, l0, l1, l2, l3);
    }
    var p6 := p5 + [l4];
    assert Join(p6, '\n') == Join(p5, '\n') + "\n" + l4 by { JoinSnoc(p5, l4, '\n'); }
    var p7 := p6 + [l5];
    assert Join(p7, '\n') == Join(p6, '\n') + "\n" + l5 by { JoinSnoc(p6, l5, '\n'); }
    var p8 := p7 + [l6];
    assert Join(p8, '\n') == Join(p7, '\n') + "\n" + l6 by { JoinSnoc(p7, l6, '\n'); }
    var p9 := p8 + [""];
    assert Join(p9, '\n') == Join(p8, '\n') + "\n" by { JoinSnoc(p8, "", '\n'); }
    var p10 := p9 + [desc];
    assert Join(p10, '\n') == Join(p9, '\n') + "\n" + desc by { JoinSnoc(p9, desc, '\n'); }
    assert p10 == [t, "", l0, l1, l2, l3, l4, l5, l6, "", desc];
  }

  /** The first six lines of the listing, joined with line breaks. */
  lemma JoinListingHead(t: string, l0: string, l1: string, l2: string, l3: string)
    ensures Join([t, "", l0, l1, l2, l3], '\n')
         == t + "\n" + "\n" + l0 + "\n" + l1 + "\n" + l2 + "\n" + l3
  {
    var p1 := [t, ""];
    assert Join(p1, '\n') == t + "\n" by {
      JoinSnoc([t], "", '\n');
      assert [t] + [""] == p1;
    }
    var p2 := p1 + [l0];
    assert Join(p2, '\n') == t + "\n" + "\n" + l0 by { JoinSnoc(p1, l0, '\n'); }
    var p3 := p2 + [l1];
    assert Join(p3, '\n') == Join(p2, '\n') + "\n" + l1 by { JoinSnoc(p2, l1, '\n'); }
    var p4 := p3 + [l2];
    assert Join(p4, '\n') == Join(p3, '\n') + "\n" + l2 by { JoinSnoc(p3, l2, '\n'); }
    var p5 := p4 + [l3];
    assert Join(p5, '\n') == Join(p4, '\n') + "\n" + l3 by { JoinSnoc(p4, l3, '\n'); }
    assert p5 == [t, "", l0, l1, l2, l3];
  }

  /**
   * Whatever the answers hold, the listing is its eleven lines in the
   * fixed order, joined with line breaks.
   */
  lemma FormatListingJoin(d: Fields)
    ensures FormatListing(d) == Join(Lines(d), '\n')
  {
    JoinListingLayout(TagsLine(d),
      FieldLine("Товар", Field(d, "item")),
      FieldLine("Размер", Field(d, "size")),
      FieldLine("Состояние", Field(d, "condition")),
      FieldLine("Цена", Field(d, "price")),
      FieldLine("Город", Field(d, "city")),
      FieldLine("Доставка", Field(d, "delivery")),
      FieldLine("Контакт", Field(d, "contact")),
      FieldLine("Описание", Field(d, "description")));
  }

  lemma TagsLineSingleLine(d: Fields)
    requires SingleLineValues(d)
    ensures '\n' !in TagsLine(d)
  {
    TagsAreWords(d);
    JoinNoSep(Tags(d), ' ', '\n');
  }

  lemma LabelledLineSingle(d: Fields, name: string, key: string)
    requires SingleLineValues(d) && '\n' !in name
    ensures '\n' !in FieldLine(name, Field(d, key))
  {
  }

  /** With single-line answers, every line of the listing is a single line. */
  lemma LinesAreSingle(d: Fields)
    requires SingleLineValues(d)
    ensures '\n' !in TagsLine(d)
    ensures '\n' !in FieldLine("Товар", Field(d, "item"))
    ensures '\n' !in FieldLine("Размер", Field(d, "size"))
    ensures '\n' !in FieldLine("Состояние", Field(d, "condition"))
    ensures '\n' !in FieldLine("Цена", Field(d, "price"))
    ensures '\n' !in FieldLine("Город", Field(d, "city"))
    ensures '\n' !in FieldLine("Доставка", Field(d, "delivery"))
    ensures '\n' !in FieldLine("Контакт", Field(d, "contact"))
    ensures '\n' !in FieldLine("Описание", Field(d, "description"))
  {
    TagsLineSingleLine(d);
    LabelledLineSingle(d, "Товар", "item");
    LabelledLineSingle(d, "Размер", "size");
    LabelledLineSingle(d, "Состояние", "condition");
    LabelledLineSingle(d, "Цена", "price");
    LabelledLineSingle(d, "Город", "city");
    LabelledLineSingle(d, "Доставка", "delivery");
    LabelledLineSingle(d, "Контакт", "contact");
    LabelledLineSingle(d, "Описание", "description");
  }

  /**
   * The listing is exactly its eleven lines, in the fixed order: the tag
   * line, a blank line, Товар, Размер, Состояние, Цена, Город, Доставка,
   * Контакт, a blank line and Описание; an absent answer shows as `—` and
   * an empty one as nothing.
   */
  lemma FormatListingLines(d: Fields)
    requires SingleLineValues(d)
    ensures Split(FormatListing(d), '\n') == Lines(d)
  {
    LinesAreSingle(d);
    SplitListingLayout(TagsLine(d),
      FieldLine("Товар", Field(d, "item")),
      FieldLine("Размер", Field(d, "size")),
      FieldLine("Состояние", Field(d, "condition")),
      FieldLine("Цена", Field(d, "price")),
      FieldLine("Город", Field(d, "city")),
      FieldLine("Доставка", Field(d, "delivery")),
      FieldLine("Контакт", Field(d, "contact")),
      FieldLine("Описание", Field(d, "description")));
  }

  // ---------------------------------------------------------------------------
  // Media and how a listing is sent with it
  // ---------------------------------------------------------------------------

  datatype MediaKind = Photo | Video

  /** One collected photo or video: its kind and the provider's file id. */
  datatype MediaItem = MediaItem(kind: MediaKind, fileId: string)

  /** One element of an album (`InputMediaPhoto` / `InputMediaVideo`). */
  datatype AlbumItem = AlbumItem(kind: MediaKind, fileId: string, caption: Option<string>, html: bool)

  /**
   * What is sent for a listing: a single photo or video with the caption
   * (`send_photo` / `send_video`, always HTML), or an album
   * (`send_media_group`).
   */
  datatype Publication = Single(item: MediaItem, caption: string) | Album(items: seq<AlbumItem>)

  /** The media a publication carries, in order. */
  function Items(p: Publication): seq<MediaItem> {
    match p
    case Single(m, _) => [m]
    case Album(items) => seq(|items|, i requires 0 <= i < |items| => MediaItem(items[i].kind, items[i].fileId))
  }

  /** The caption attached to each item of a publication. */
  function Captions(p: Publication): seq<Option<string>> {
    match p
    case Single(_, c) => [Some(c)]
    case Album(items) => seq(|items|, i requires 0 <= i < |items| => items[i].caption)
  }

  /** The album element for the `i`-th media item: the caption only at index 0, HTML only when it is non-empty. */
  function AlbumEntry(m: MediaItem, i: nat, text: string): AlbumItem {
    var caption := if i == 0 then Some(text) else None;
    AlbumItem(m.kind, m.fileId, caption, caption.Some? && caption.value != [])
  }

  function AlbumOf(media: seq<MediaItem>, text: string): seq<AlbumItem> {
    seq(|media|, i requires 0 <= i < |media| => AlbumEntry(media[i], i, text))
  }

  /** How a listing with caption `text` is sent: one item on its own, any other number as an album. */
  function Layout(media: seq<MediaItem>, text: string): Publication {
    if |media| == 1 then Single(media[0], text) else Album(AlbumOf(media, text))
  }

  /**
   * Either way the media keep their number, order, kinds and file ids,
   * only the first item carries the caption, and exactly one item goes
   * out on its own.
   */
  lemma LayoutKeepsMedia(media: seq<MediaItem>, text: string)
    ensures var p := Layout(media, text);
      && (p.Single? <==> |media| == 1)
      && Items(p) == media
      && |Captions(p)| == |media|
      && (forall i :: 0 <= i < |media| ==> Captions(p)[i] == (if i == 0 then Some(text) else None))
      && (p.Album? ==> forall i :: 0 <= i < |p.items| ==> (p.items[i].html <==> i == 0 && text != []))
  {
    if |media| != 1 {
      assert Items(Layout(media, text)) == media;
    }
  }

  /** The album loop of `media_done`, `confirm_handler` and `moderation_handler`. */
  method BuildAlbum(media: seq<MediaItem>, text: string) returns (album: seq<AlbumItem>)
    ensures album == AlbumOf(media, text)
  {
    album := [];
    var i := 0;
    while i < |media|
      invariant 0 <= i <= |media|
      invariant album == AlbumOf(media[..i], text)
    {
      var caption: Option<string> := if i == 0 then Some(text) else None;
      var item := AlbumItem(media[i].kind, media[i].fileId, caption, caption.Some? && caption.value != []);
      album := album + [item];
      i := i + 1;
    }
    assert media[..i] == media;
  }

  /** Sends one item directly and anything else as an album. */
  method Compose(media: seq<MediaItem>, text: string) returns (p: Publication)
    ensures p == Layout(media, text)
  {
    if |media| == 1 {
      p := Single(media[0], text);
    } else {
      var album := BuildAlbum(media, text);
      p := Album(album);
    }
  }

  /**
   * A user's record (`user_data`): the text answers by key and, once the
   * form has been started, the list of collected media.
   */
  datatype Record = Record(fields: Fields, media: Option<seq<MediaItem>>)

  /** How a record is shown in the preview, to the moderators and in the channel. */
  function PublicationOf(r: Record): Publication {
    Layout(r.media.GetOr([]), FormatListing(r.fields))
  }
}
