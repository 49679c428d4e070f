/**
 * The summary screen shown before deleting images: the selected images grouped by
 * project name, rendered as a header, one line per image and a blank line per project,
 * with a window of those lines around a cursor.
 */
module ImageSummary {
  import opened ImageSelector

  // ---------------------------------------------------------------------------------
  // groupImagesByProject

  /** The distinct project names of `images`, in order of first appearance. */
  function Order(images: seq<ImageItem>): seq<string> {
    if |images| == 0 then []
    else
      var prev := Order(images[..|images| - 1]);
      var name := images[|images| - 1].projectName;
      if name in prev then prev else prev + [name]
  }

  /** The images of project `name`, in input order. */
  function Group(images: seq<ImageItem>, name: string): (g: seq<ImageItem>)
    ensures |g| <= |images|
  {
    if |images| == 0 then []
    else
      var x := images[|images| - 1];
      Group(images[..|images| - 1], name) + (if x.projectName == name then [x] else [])
  }

  /** A bucket holds images of the input, all of its own project. */
  lemma {:induction false} GroupMembers(images: seq<ImageItem>, name: string)
    ensures forall x :: x in Group(images, name) ==> x in images && x.projectName == name
  {
    if |images| > 0 {
      var init := images[..|images| - 1];
      GroupMembers(init, name);
      assert forall x :: x in init ==> x in images;
    }
  }

  /** The grouping, image by image: each image appended to its project's bucket, created on first sight. */
  function Grouping(images: seq<ImageItem>): map<string, seq<ImageItem>> {
    if |images| == 0 then map[]
    else
      var g := Grouping(images[..|images| - 1]);
      var x := images[|images| - 1];
      g[x.projectName := (if x.projectName in g then g[x.projectName] else []) + [x]]
  }

  /** No sequence element occurs twice. */
  predicate Distinct(xs: seq<string>) {
    forall i, j :: 0 <= i < j < |xs| ==> xs[i] != xs[j]
  }

  /** projectOrder lists every project name of the input, and only those, once each. */
  lemma {:induction false} OrderMembers(images: seq<ImageItem>)
    ensures Distinct(Order(images))
    ensures forall name :: name in Order(images) <==> exists x :: x in images && x.projectName == name
  {
    if |images| > 0 {
      var init := images[..|images| - 1];
      OrderMembers(init);
      assert images == init + [images[|images| - 1]];
    }
  }

  /** An image lands in its own project's bucket, in order. */
  lemma GroupAppend(images: seq<ImageItem>, x: ImageItem, name: string)
    ensures Group(images + [x], name) == Group(images, name) + (if x.projectName == name then [x] else [])
  {
    assert (images + [x])[..|images|] == images;
  }

  /** A name that does not occur has an empty bucket. */
  lemma {:induction false} GroupAbsent(images: seq<ImageItem>, name: string)
    requires name !in Order(images)
    ensures Group(images, name) == []
  {
    if |images| > 0 {
      GroupAbsent(images[..|images| - 1], name);
    }
  }

  /**
   * The grouping has a bucket for exactly the project names of the input, and each
   * bucket holds that project's images in input order.
   */
  lemma {:induction false} GroupingBuckets(images: seq<ImageItem>, name: string)
    ensures name in Grouping(images) <==> name in Order(images)
    ensures name in Grouping(images) ==> Grouping(images)[name] == Group(images, name)
  {
    if |images| > 0 {
      var init := images[..|images| - 1];
      GroupingBuckets(init, name);
      if name !in Order(init) {
        GroupAbsent(init, name);
      }
    }
  }

  /** groupImagesByProject's loop. */
  method GroupImagesByProject(images: seq<ImageItem>) returns (grouped: map<string, seq<ImageItem>>, order: seq<string>)
    ensures grouped == Grouping(images)
    ensures order == Order(images)
  {
    grouped := map[];
    order := [];
    var seen: set<string> := {};
    var i := 0;
    while i < |images|
      invariant 0 <= i <= |images|
      invariant grouped == Grouping(images[..i])
      invariant order == Order(images[..i])
      invariant forall n :: n in seen <==> n in order
    {
      var x := images[i];
      var name := x.projectName;
      assert images[..i + 1][..i] == images[..i];
      GroupingBuckets(images[..i], name);
      if name !in grouped {
        grouped := grouped[name := []];
        if name !in seen {
          order := order + [name];
          seen := seen + {name};
        }
      }
      grouped := grouped[name := grouped[name] + [x]];
      i := i + 1;
    }
    assert images[..i] == images;
  }

  /** The total size of the buckets of `names`. */
  function Total(names: seq<string>, images: seq<ImageItem>): nat {
    if |names| == 0 then 0 else Total(names[..|names| - 1], images) + |Group(images, names[|names| - 1])|
  }

  lemma {:induction false} TotalAppend(names: seq<string>, images: seq<ImageItem>, x: ImageItem)
    requires Distinct(names)
    ensures Total(names, images + [x]) == Total(names, images) + (if x.projectName in names then 1 else 0)
  {
    if |names| > 0 {
      var init := names[..|names| - 1];
      assert Distinct(init);
      TotalAppend(init, images, x);
      GroupAppend(images, x, names[|names| - 1]);
      assert names == init + [names[|names| - 1]];
    }
  }

  /** The buckets partition the input: their sizes add up to the number of images. */
  lemma {:induction false} BucketsPartition(images: seq<ImageItem>)
    ensures Total(Order(images), images) == |images|
  {
    if |images| > 0 {
      var init := images[..|images| - 1];
      var x := images[|images| - 1];
      assert images == init + [x];
      BucketsPartition(init);
      OrderMembers(init);
      TotalAppend(Order(init), init, x);
      if x.projectName !in Order(init) {
        var o := Order(init) + [x.projectName];
        assert o[..|o| - 1] == Order(init);
        GroupAppend(init, x, x.projectName);
        GroupAbsent(init, x.projectName);
      }
    }
  }

  // ---------------------------------------------------------------------------------
  // buildContentLines

  /** A line of the summary: a project header, an image with its location, or a separator. */
  datatype Line = Header(project: string) | ImageLine(name: string, location: string) | Blank

  function ImageLines(images: seq<ImageItem>): (lines: seq<Line>)
    ensures |lines| == |images|
    ensures forall i :: 0 <= i < |images| ==> lines[i] == ImageLine(images[i].info.name, images[i].info.location)
  {
    seq(|images|, i requires 0 <= i < |images| => ImageLine(images[i].info.name, images[i].info.location))
  }

  /** The bucket of `name`; none for a name without one. */
  function BucketOf(grouped: map<string, seq<ImageItem>>, name: string): seq<ImageItem> {
    if name in grouped then grouped[name] else []
  }

  /** buildContentLines: for each project in order, its header, its images and a blank line. */
  function ContentLines(order: seq<string>, grouped: map<string, seq<ImageItem>>): seq<Line> {
    if |order| == 0 then []
    else
      var name := order[|order| - 1];
      ContentLines(order[..|order| - 1], grouped) + [Header(name)] + ImageLines(BucketOf(grouped, name)) + [Blank]
  }

  lemma ImageLinesSnoc(images: seq<ImageItem>, i: nat)
    requires i < |images|
    ensures ImageLines(images[..i + 1]) == ImageLines(images[..i]) + [ImageLine(images[i].info.name, images[i].info.location)]
  {
  }

  /** One more project of buildContentLines' outer loop. */
  lemma ContentLinesSnoc(order: seq<string>, grouped: map<string, seq<ImageItem>>, k: nat)
    requires k < |order|
    ensures ContentLines(order[..k + 1], grouped)
      == ContentLines(order[..k], grouped) + [Header(order[k])] + ImageLines(BucketOf(grouped, order[k])) + [Blank]
  {
    assert order[..k + 1][..k] == order[..k];
  }

  /** The inner loop of buildContentLines: one line per image of a bucket, appended in order. */
  method AppendImageLines(prefix: seq<Line>, images: seq<ImageItem>) returns (lines: seq<Line>)
    ensures lines == prefix + ImageLines(images)
  {
    lines := prefix;
    var i := 0;
    while i < |images|
      invariant 0 <= i <= |images|
      invariant lines == prefix + ImageLines(images[..i])
    {
      ImageLinesSnoc(images, i);
      lines := lines + [ImageLine(images[i].info.name, images[i].info.location)];
      i := i + 1;
    }
    assert images[..i] == images;
  }

  /** buildContentLines' loop. */
  method BuildContentLines(order: seq<string>, grouped: map<string, seq<ImageItem>>) returns (lines: seq<Line>)
    ensures lines == ContentLines(order, grouped)
  {
    lines := [];
    var k := 0;
    while k < |order|
      invariant 0 <= k <= |order|
      invariant lines == ContentLines(order[..k], grouped)
    {
      var name := order[k];
      lines := AppendImageLines(lines + [Header(name)], BucketOf(grouped, name));
      ContentLinesSnoc(order, grouped, k);
      lines := lines + [Blank];
      k := k + 1;
    }
    assert order[..k] == order;
  }

  lemma {:induction false} ContentLinesSize(names: seq<string>, images: seq<ImageItem>)
    requires forall name :: name in names ==> name in Grouping(images)
    ensures |ContentLines(names, Grouping(images))| == 2 * |names| + Total(names, images)
  {
    if |names| > 0 {
      ContentLinesSize(names[..|names| - 1], images);
      GroupingBuckets(images, names[|names| - 1]);
    }
  }

  /** The summary has two lines per project plus one line per image. */
  lemma LineCount(images: seq<ImageItem>)
    ensures |ContentLines(Order(images), Grouping(images))| == 2 * |Order(images)| + |images|
  {
    forall name | name in Order(images)
      ensures name in Grouping(images)
    {
      GroupingBuckets(images, name);
    }
    ContentLinesSize(Order(images), images);
    BucketsPartition(images);
  }

  // ---------------------------------------------------------------------------------
  // calculateViewport

  /** The lines left for content once the title, footer and help lines are taken, at least one. */
  function Available(height: int): (n: nat)
    ensures n >= 1 && n >= height - 6
    ensures height - 6 >= 1 ==> n == height - 6
  {
    if height - 6 < 1 then 1 else height - 6
  }

  /** calculateViewport: the window [start, end) of lines to show. */
  function Viewport(cursor: nat, height: int, total: nat): (w: (nat, nat))
    ensures total == 0 ==> w == (0, 0)
    ensures 0 < total <= Available(height) ==> w == (0, total)
    ensures w.0 <= w.1 <= total
    ensures w.1 - w.0 <= Available(height)
    ensures total > Available(height) && cursor + Available(height) <= total ==> w == (cursor, cursor + Available(height))
    ensures total > Available(height) && cursor + Available(height) > total ==> w == (total - Available(height), total)
  {
    if total == 0 then (0, 0)
    else
      var avail := Available(height);
      if total <= avail then (0, total)
      else if cursor + avail > total then (if total - avail < 0 then 0 else total - avail, total)
      else (cursor, cursor + avail)
  }

  /** A cursor on a line is inside the window, and the window is as tall as it can be. */
  lemma ViewportShowsCursor(cursor: nat, height: int, total: nat)
    requires cursor < total
    ensures var w := Viewport(cursor, height, total);
      w.0 <= cursor < w.1 && w.1 - w.0 == if total < Available(height) then total else Available(height)
  {
  }

  // ---------------------------------------------------------------------------------
  // The summary screen

  predicate QuitKey(k: string) { k == "ctrl+c" || k == "q" }
  predicate BackKey(k: string) { k == "b" || k == "B" }
  predicate UpKey(k: string) { k == "up" || k == "k" }
  predicate DownKey(k: string) { k == "down" || k == "j" }

  class Summary {
    const images: seq<ImageItem>
    var grouped: map<string, seq<ImageItem>>
    var projectOrder: seq<string>
    var cursor: nat
    var width: int
    var height: int
    var wentBack: bool

    /** NewImageSummaryModel. */
    constructor (images: seq<ImageItem>)
      ensures this.images == images && grouped == Grouping(images) && projectOrder == Order(images)
      ensures cursor == 0 && width == 0 && height == 0 && !wentBack
    {
      var g, o := GroupImagesByProject(images);
      this.images := images;
      this.grouped := g;
      this.projectOrder := o;
      this.cursor := 0;
      this.width := 0;
      this.height := 0;
      this.wentBack := false;
    }

    /** moveCursor: move over the content lines and stay on one; nothing happens without lines. */
    method MoveCursor(delta: int)
      modifies this`cursor
      ensures var n := |ContentLines(projectOrder, grouped)|;
        && (n == 0 ==> cursor == old(cursor))
        && (n > 0 ==> cursor == Clamp(old(cursor) + delta, n - 1))
    {
      var lines := BuildContentLines(projectOrder, grouped);
      if |lines| == 0 {
        return;
      }
      var c := cursor + delta;
      if c < 0 {
        cursor := 0;
      } else if c >= |lines| {
        cursor := |lines| - 1;
      } else {
        cursor := c;
      }
    }

    /** Update: resizes, the quit and back keys, and cursor movement. */
    method Update(msg: Msg) returns (cmd: Command)
      modifies this`width, this`height, this`wentBack, this`cursor
      ensures cmd == Exit <==> msg.KeyPress? && (QuitKey(msg.key) || BackKey(msg.key))
      ensures cmd != Exit ==> cmd == NoCommand
      ensures wentBack == (old(wentBack) || (msg.KeyPress? && BackKey(msg.key)))
      ensures msg.WindowSize? ==> width == msg.width && height == msg.height
      ensures !msg.WindowSize? ==> width == old(width) && height == old(height)
      ensures var n := |ContentLines(projectOrder, grouped)|;
        if msg.KeyPress? && (UpKey(msg.key) || DownKey(msg.key)) && n > 0 then
          cursor == Clamp(old(cursor) + (if UpKey(msg.key) then -1 else 1), n - 1)
        else cursor == old(cursor)
    {
      cmd := NoCommand;
      if msg.WindowSize? {
        width := msg.width;
        height := msg.height;
      } else if msg.KeyPress? {
        var k := msg.key;
        if QuitKey(k) {
          cmd := Exit;
        } else if BackKey(k) {
          wentBack := true;
          cmd := Exit;
        } else if UpKey(k) {
          MoveCursor(-1);
        } else if DownKey(k) {
          MoveCursor(1);
        }
      }
    }
  }
}
