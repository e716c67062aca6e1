/**
 * `generateHtmlLink`: the anchor element for one tracking number. The attributes are
 * `href` followed by the configured `linkAttributes`, merged the way `array_merge`
 * merges string-keyed arrays, and written out in order as ` name="value"`.
 */
module Html {
  import opened Text
  import opened Template
  import opened UrlEncode
  import opened Carriers
  import opened Classify

  /** One entry of a string-keyed PHP array of attributes. */
  datatype Attribute = Attribute(name: Bytes, value: Bytes)

  /** The keys of a PHP array are distinct. */
  predicate DistinctNames(attrs: seq<Attribute>)
  {
    forall i, j :: 0 <= i < j < |attrs| ==> attrs[i].name != attrs[j].name
  }

  predicate HasName(attrs: seq<Attribute>, name: Bytes)
  {
    exists i :: 0 <= i < |attrs| && attrs[i].name == name
  }

  /**
   * `$attrs[$name] = $value` on an ordered array: an existing key keeps its place and
   * takes the new value, a new key goes at the end.
   */
  function Put(attrs: seq<Attribute>, name: Bytes, value: Bytes): (r: seq<Attribute>)
    ensures |r| == if HasName(attrs, name) then |attrs| else |attrs| + 1
    ensures HasName(r, name)
  {
    if attrs == [] then
      assert [Attribute(name, value)][0].name == name;
      [Attribute(name, value)]
    else if attrs[0].name == name then
      assert ([Attribute(name, value)] + attrs[1..])[0].name == name;
      [Attribute(name, value)] + attrs[1..]
    else
      var rest := Put(attrs[1..], name, value);
      assert HasName(attrs, name) <==> HasName(attrs[1..], name) by {
        if HasName(attrs, name) {
          var i :| 0 <= i < |attrs| && attrs[i].name == name;
          assert attrs[1..][i - 1].name == name;
        }
      }
      var k :| 0 <= k < |rest| && rest[k].name == name;
      assert ([attrs[0]] + rest)[k + 1].name == name;
      [attrs[0]] + rest
  }

  /** Putting a new key appends it. */
  lemma {:induction false} PutNew(attrs: seq<Attribute>, name: Bytes, value: Bytes)
    requires !HasName(attrs, name)
    ensures Put(attrs, name, value) == attrs + [Attribute(name, value)]
  {
    if attrs != [] {
      assert attrs[0].name != name;
      PutNew(attrs[1..], name, value);
      assert attrs == [attrs[0]] + attrs[1..];
    }
  }

  /** Putting a key that is there, first at index i, replaces that entry in place. */
  lemma {:induction false} PutExisting(attrs: seq<Attribute>, i: nat, value: Bytes)
    requires i < |attrs|
    requires forall j :: 0 <= j < i ==> attrs[j].name != attrs[i].name
    ensures Put(attrs, attrs[i].name, value) == attrs[i := Attribute(attrs[i].name, value)]
  {
    if i > 0 {
      var name := attrs[i].name;
      assert attrs[0].name != name;
      assert attrs[1..][i - 1] == attrs[i];
      PutExisting(attrs[1..], i - 1, value);
      assert [attrs[0]] + attrs[1..][i - 1 := Attribute(name, value)] == attrs[i := Attribute(name, value)];
    }
  }

  /** `array_merge(a, b)` for string keys: the entries of b put into a, in order. */
  function Merge(a: seq<Attribute>, b: seq<Attribute>): seq<Attribute>
    decreases |b|
  {
    if b == [] then a else Merge(Put(a, b[0].name, b[0].value), b[1..])
  }

  /** One attribute as ` name="value"`; AttributeHtmlIsSprintf ties it to the format. */
  function AttributeHtml(a: Attribute): Bytes
  {
    " " + a.name + "=\"" + a.value + "\""
  }

  /** The concatenation of the attributes' text, in order. */
  function AttributesHtml(attrs: seq<Attribute>): Bytes
  {
    if attrs == [] then [] else AttributesHtml(attrs[..|attrs| - 1]) + AttributeHtml(attrs[|attrs| - 1])
  }

  /** The anchor around text, its attributes trimmed; AnchorIsSprintf ties it to the format. */
  function Anchor(attributesHtml: Bytes, text: Bytes): Bytes
  {
    "<a " + Trim(attributesHtml) + ">" + text + "</a>"
  }

  /** The format each attribute is printed with. */
  const AttributeFormat: Bytes := " %s=\"%s\""

  /** The format of the anchor element. */
  const AnchorFormat: Bytes := "<a %s>%s</a>"

  /** An attribute's text is `sprintf(' %s="%s"', name, value)`. */
  lemma AttributeHtmlIsSprintf(a: Attribute)
    ensures WellFormed(AttributeFormat) && Conversions(AttributeFormat) == 2
    ensures Sprintf(AttributeFormat, [a.name, a.value]) == AttributeHtml(a)
  {
    assert AttributeFormat == " " + "%s" + "=\"" + "%s" + "\"";
    SprintfTwo(" ", "=\"", "\"", a.name, a.value);
  }

  /** The anchor is `sprintf('<a %s>%s</a>', trim(attributesHtml), text)`. */
  lemma AnchorIsSprintf(attributesHtml: Bytes, text: Bytes)
    ensures WellFormed(AnchorFormat) && Conversions(AnchorFormat) == 2
    ensures Sprintf(AnchorFormat, [Trim(attributesHtml), text]) == Anchor(attributesHtml, text)
  {
    AnchorFormatFilled(Trim(attributesHtml), text);
  }

  /** The anchor format with its two arguments in place. */
  lemma AnchorFormatFilled(x: Bytes, y: Bytes)
    ensures WellFormed(AnchorFormat) && Conversions(AnchorFormat) == 2
    ensures Sprintf(AnchorFormat, [x, y]) == "<a " + x + ">" + y + "</a>"
  {
    assert AnchorFormat == "<a " + "%s" + ">" + "%s" + "</a>";
    SprintfTwo("<a ", ">", "</a>", x, y);
  }

  /** The key the tracking URL is stored under. */
  const Href: Bytes := "href"

  /** The attribute array of the link: `href` first, then the configured attributes merged in. */
  function LinkAttributes(c: Carrier, linkAttributes: seq<Attribute>, tn: Bytes): seq<Attribute>
  {
    Merge([Attribute(Href, TrackingUrl(c, tn))], linkAttributes)
  }

  /** The HTML that `generateHtmlLink` returns for carrier c and tracking number tn. */
  function Link(c: Carrier, linkAttributes: seq<Attribute>, tn: Bytes): Bytes
  {
    Anchor(AttributesHtml(LinkAttributes(c, linkAttributes, tn)), tn)
  }

  /** `generateHtmlLink($carrier, $trackingNumber)`, with `linkAttributes` from the constructor's arguments. */
  method GenerateHtmlLink(c: Carrier, linkAttributes: seq<Attribute>, tn: Bytes) returns (html: Bytes)
    ensures html == Link(c, linkAttributes, tn)
  {
    var attributes := LinkAttributes(c, linkAttributes, tn);
    var attributesHtml: Bytes := "";
    var i := 0;
    while i < |attributes|
      invariant 0 <= i <= |attributes|
      invariant attributesHtml == AttributesHtml(attributes[..i])
    {
      assert attributes[..i + 1][..i] == attributes[..i];
      attributesHtml := attributesHtml + AttributeHtml(attributes[i]);
      i := i + 1;
    }
    assert attributes[..i] == attributes;
    html := Anchor(attributesHtml, tn);
  }

  lemma {:induction false} AttributesHtmlAppend(x: seq<Attribute>, y: seq<Attribute>)
    ensures AttributesHtml(x + y) == AttributesHtml(x) + AttributesHtml(y)
    decreases |y|
  {
    if y == [] {
      assert x + y == x;
    } else {
      var y' := y[..|y| - 1];
      var last := y[|y| - 1];
      assert (x + y)[..|x + y| - 1] == x + y';
      assert (x + y)[|x + y| - 1] == last;
      assert AttributesHtml(x + y) == AttributesHtml(x + y') + AttributeHtml(last);
      AttributesHtmlAppend(x, y');
      assert AttributesHtml(y) == AttributesHtml(y') + AttributeHtml(last);
    }
  }

  /** Merging entries whose keys are all new appends them in order. */
  lemma {:induction false} MergeFresh(a: seq<Attribute>, b: seq<Attribute>)
    requires DistinctNames(b)
    requires forall i, j :: 0 <= i < |a| && 0 <= j < |b| ==> a[i].name != b[j].name
    ensures Merge(a, b) == a + b
    decreases |b|
  {
    if b != [] {
      PutNew(a, b[0].name, b[0].value);
      var a' := a + [b[0]];
      assert forall i, j :: 0 <= i < |a'| && 0 <= j < |b[1..]| ==> a'[i].name != b[1..][j].name by {
        forall i, j | 0 <= i < |a'| && 0 <= j < |b[1..]| ensures a'[i].name != b[1..][j].name {
          assert b[1..][j] == b[j + 1];
        }
      }
      MergeFresh(a', b[1..]);
      assert a' + b[1..] == a + b;
    }
  }

  /** `array_merge(a, b + c)` is `array_merge(array_merge(a, b), c)`. */
  lemma {:induction false} MergeAppend(a: seq<Attribute>, b: seq<Attribute>, c: seq<Attribute>)
    ensures Merge(a, b + c) == Merge(Merge(a, b), c)
    decreases |b|
  {
    if b == [] {
      assert b + c == c;
    } else {
      assert (b + c)[0] == b[0] && (b + c)[1..] == b[1..] + c;
      var a' := Put(a, b[0].name, b[0].value);
      assert Merge(a, b + c) == Merge(a', b[1..] + c);
      MergeAppend(a', b[1..], c);
    }
  }

  /** Without a configured `href`, the configured attributes follow the URL in their own order. */
  lemma LinkAttributesWithoutHref(url: Bytes, attrs: seq<Attribute>)
    requires DistinctNames(attrs)
    requires !HasName(attrs, Href)
    ensures Merge([Attribute(Href, url)], attrs) == [Attribute(Href, url)] + attrs
  {
    MergeFresh([Attribute(Href, url)], attrs);
  }

  /** `array_merge` of three runs, one run at a time. */
  lemma MergeThree(a: seq<Attribute>, b: seq<Attribute>, x: Attribute, c: seq<Attribute>)
    ensures Merge(a, b + [x] + c) == Merge(Merge(Merge(a, b), [x]), c)
  {
    MergeAppend(a, b + [x], c);
    MergeAppend(a, b, [x]);
  }

  /** Merging an entry with the key of the first entry replaces that entry. */
  lemma MergeOverride(m: seq<Attribute>, x: Attribute)
    requires m != [] && m[0].name == x.name
    ensures Merge(m, [x]) == [x] + m[1..]
  {
    assert [x][1..] == [];
    PutExisting(m, 0, x.value);
  }

  /** No key of a is a key of b. */
  predicate Disjoint(a: seq<Attribute>, b: seq<Attribute>)
  {
    forall i, j :: 0 <= i < |a| && 0 <= j < |b| ==> a[i].name != b[j].name
  }

  /** Taking entry h out of an array with distinct keys, and what stays distinct. */
  lemma SplitDistinct(attrs: seq<Attribute>, h: nat)
    requires DistinctNames(attrs) && h < |attrs|
    ensures DistinctNames(attrs[..h]) && DistinctNames(attrs[h + 1..])
    ensures Disjoint([attrs[h]], attrs[..h])
    ensures Disjoint([attrs[h]] + attrs[..h], attrs[h + 1..])
  {
    var before, after := attrs[..h], attrs[h + 1..];
    assert forall j :: 0 <= j < |before| ==> before[j] == attrs[j];
    assert forall j :: 0 <= j < |after| ==> after[j] == attrs[h + 1 + j];
    var m := [attrs[h]] + before;
    forall i, j | 0 <= i < |m| && 0 <= j < |after| ensures m[i].name != after[j].name {
      if i == 0 {
        assert m[i] == attrs[h];
      } else {
        assert m[i] == attrs[i - 1];
      }
    }
  }

  /** The keys before entry h are new to an array holding only that key. */
  lemma MergeBefore(attrs: seq<Attribute>, h: nat, url: Bytes)
    requires DistinctNames(attrs) && h < |attrs|
    ensures Merge([Attribute(attrs[h].name, url)], attrs[..h]) == [Attribute(attrs[h].name, url)] + attrs[..h]
  {
    SplitDistinct(attrs, h);
    MergeFresh([Attribute(attrs[h].name, url)], attrs[..h]);
  }

  /** The keys after entry h are new to entry h followed by the keys before it. */
  lemma MergeAfter(attrs: seq<Attribute>, h: nat)
    requires DistinctNames(attrs) && h < |attrs|
    ensures Merge([attrs[h]] + attrs[..h], attrs[h + 1..]) == [attrs[h]] + (attrs[..h] + attrs[h + 1..])
  {
    SplitDistinct(attrs, h);
    MergeFresh([attrs[h]] + attrs[..h], attrs[h + 1..]);
  }

  /**
   * Merging into a one-entry array attributes that carry its key at h: entry h takes
   * the first place, and the others follow in their own order.
   */
  lemma MergeReplacesFirst(url: Bytes, attrs: seq<Attribute>, h: nat)
    requires DistinctNames(attrs) && h < |attrs|
    ensures Merge([Attribute(attrs[h].name, url)], attrs) == [attrs[h]] + (attrs[..h] + attrs[h + 1..])
  {
    var x := attrs[h];
    var first := [Attribute(x.name, url)];
    var before, after := attrs[..h], attrs[h + 1..];
    assert attrs == before + [x] + after;
    MergeThree(first, before, x, after);
    MergeBefore(attrs, h, url);
    MergeOverride(first + before, x);
    assert (first + before)[1..] == before;
    MergeAfter(attrs, h);
  }

  /** The text of attributes led by one named n: a space, then `n="v"`, then the rest. */
  lemma AttributesHtmlFirst(x: Attribute, rest: seq<Attribute>)
    ensures AttributesHtml([x] + rest) == AttributeHtml(x) + AttributesHtml(rest)
  {
    AttributesHtmlAppend([x], rest);
    assert AttributesHtml([x]) == AttributesHtml([]) + AttributeHtml(x);
  }

  /** The text of attributes is empty or ends in the closing quote of the last value. */
  lemma AttributesHtmlEnd(attrs: seq<Attribute>)
    ensures AttributesHtml(attrs) == [] || AttributesHtml(attrs)[|AttributesHtml(attrs)| - 1] == '"'
  {
    if attrs != [] {
      var last := AttributeHtml(attrs[|attrs| - 1]);
      assert AttributesHtml(attrs) == AttributesHtml(attrs[..|attrs| - 1]) + last;
      assert last[|last| - 1] == '"';
    }
  }

  /** Trimming ` n="v"` and a text that is empty or ends in `"` drops exactly the space. */
  lemma TrimAttributeHtml(x: Attribute, rest: Bytes)
    requires x.name != [] && !IsTrimmable(x.name[0])
    requires rest == [] || rest[|rest| - 1] == '"'
    ensures Trim(AttributeHtml(x) + rest) == AttributeHtml(x)[1..] + rest
  {
    var s := AttributeHtml(x) + rest;
    assert s[|s| - 1] == '"';
    assert s[1] == x.name[0];
    TrimLeadingSpace(s);
    assert s[1..] == AttributeHtml(x)[1..] + rest;
  }

  /** The anchor for attributes led by x: the trim removes exactly the leading space. */
  lemma AnchorShape(x: Attribute, rest: seq<Attribute>, text: Bytes)
    requires x.name != [] && !IsTrimmable(x.name[0])
    ensures Anchor(AttributesHtml([x] + rest), text)
      == "<a " + AttributeHtml(x)[1..] + AttributesHtml(rest) + ">" + text + "</a>"
  {
    var r := AttributesHtml(rest);
    var t := AttributeHtml(x)[1..];
    TrimLeading(x, rest);
    Assoc("<a ", t, r);
    AnchorOpening(AttributesHtml([x] + rest), "<a " + t + r, text);
  }

  /** Trimming attributes led by x removes exactly the leading space. */
  lemma TrimLeading(x: Attribute, rest: seq<Attribute>)
    requires x.name != [] && !IsTrimmable(x.name[0])
    ensures Trim(AttributesHtml([x] + rest)) == AttributeHtml(x)[1..] + AttributesHtml(rest)
  {
    AttributesHtmlFirst(x, rest);
    AttributesHtmlEnd(rest);
    TrimAttributeHtml(x, AttributesHtml(rest));
  }

  /** `<a ` followed by ` href="v"` without its leading space. */
  lemma HrefHtml(href: Bytes)
    ensures "<a " + AttributeHtml(Attribute(Href, href))[1..] == "<a href=\"" + href + "\""
  {
    assert AttributeHtml(Attribute(Href, href))[1..] == "href=\"" + href + "\"";
    Assoc("<a ", "href=\"" + href, "\"");
    Assoc("<a ", "href=\"", href);
  }

  /** With no configured attributes the link is exactly `<a href="URL">TN</a>`. */
  lemma LinkWithoutAttributes(c: Carrier, tn: Bytes)
    ensures Link(c, [], tn) == "<a href=\"" + TrackingUrl(c, tn) + "\">" + tn + "</a>"
  {
    var url := TrackingUrl(c, tn);
    assert LinkAttributes(c, [], tn) == [Attribute(Href, url)];
    HrefOnly(url, tn);
  }

  /** The anchor whose only attribute is `href`. */
  lemma HrefOnly(url: Bytes, tn: Bytes)
    ensures Anchor(AttributesHtml([Attribute(Href, url)]), tn) == "<a href=\"" + url + "\">" + tn + "</a>"
  {
    var x := Attribute(Href, url);
    SingleAttributeTrimmed(x);
    HrefHtml(url);
    AnchorOpening(AttributesHtml([x]), "<a href=\"" + url + "\"", tn);
    QuoteThenClose("<a href=\"" + url, tn);
  }

  /** The anchor is its opening `<a ` and trimmed attributes, then `>`, the text and `</a>`. */
  lemma AnchorOpening(attributesHtml: Bytes, opening: Bytes, text: Bytes)
    requires "<a " + Trim(attributesHtml) == opening
    ensures Anchor(attributesHtml, text) == opening + ">" + text + "</a>"
  {
  }

  /** The text of one attribute, trimmed, is that attribute without its leading space. */
  lemma SingleAttributeTrimmed(x: Attribute)
    requires x.name != [] && !IsTrimmable(x.name[0])
    ensures Trim(AttributesHtml([x])) == AttributeHtml(x)[1..]
  {
    assert AttributesHtml([x]) == AttributeHtml(x) by {
      assert [x][..0] == [];
    }
    TrimAttributeHtml(x, []);
    assert AttributeHtml(x) + [] == AttributeHtml(x);
  }

  /** A closing quote and `>` written one after the other are the two bytes `">`. */
  lemma QuoteThenClose(open: Bytes, tn: Bytes)
    ensures open + "\"" + ">" + tn + "</a>" == open + "\">" + tn + "</a>"
  {
    Assoc(open, "\"", ">");
    assert "\"" + ">" == "\">";
  }

  /**
   * The general shape: `href` comes first, with the configured value when there is
   * one and the tracking URL otherwise, and the other attributes follow in order.
   */
  lemma LinkShape(c: Carrier, tn: Bytes, attrs: seq<Attribute>)
    requires DistinctNames(attrs)
    ensures !HasName(attrs, Href) ==>
      Link(c, attrs, tn) == "<a href=\"" + TrackingUrl(c, tn) + "\"" + AttributesHtml(attrs) + ">" + tn + "</a>"
    ensures forall h :: 0 <= h < |attrs| && attrs[h].name == Href ==>
      Link(c, attrs, tn)
      == "<a href=\"" + attrs[h].value + "\"" + AttributesHtml(attrs[..h] + attrs[h + 1..]) + ">" + tn + "</a>"
  {
    if !HasName(attrs, Href) {
      LinkAttributesWithoutHref(TrackingUrl(c, tn), attrs);
      LinkHref(TrackingUrl(c, tn), attrs, tn);
    }
    forall h | 0 <= h < |attrs| && attrs[h].name == Href
      ensures Link(c, attrs, tn)
        == "<a href=\"" + attrs[h].value + "\"" + AttributesHtml(attrs[..h] + attrs[h + 1..]) + ">" + tn + "</a>"
    {
      MergeReplacesFirst(TrackingUrl(c, tn), attrs, h);
      assert attrs[h] == Attribute(Href, attrs[h].value);
      LinkHref(attrs[h].value, attrs[..h] + attrs[h + 1..], tn);
    }
  }

  /** The anchor text for `href` then rest, written out. */
  lemma LinkHref(href: Bytes, rest: seq<Attribute>, tn: Bytes)
    ensures Anchor(AttributesHtml([Attribute(Href, href)] + rest), tn)
      == "<a href=\"" + href + "\"" + AttributesHtml(rest) + ">" + tn + "</a>"
  {
    AnchorShape(Attribute(Href, href), rest, tn);
    HrefHtml(href);
  }
}
