/**
 * The static analyser of collector.py: the accessibility metrics read off a
 * parsed page, the layout detector driven by the region table, the
 * arithmetic over a dynamic audit's violations, and how the complete and the
 * quick analysis merge them. Fetching the page and running the audit are
 * inputs here (see `Fetch` and `AuditRun`).
 */
module Collector {
  import opened Wrappers
  import opened Seqs
  import opened Html
  import Strings

  /** Link texts that say nothing about where the link goes (TEXTOS_GENERICOS). */
  const GenericTexts: seq<string> :=
    ["clique aqui", "saiba mais", "leia mais", "aqui", "click here", "veja mais"]

  /**
   * The region table (LAYOUT_TAGS): categories in table order, each with its
   * selectors in priority order.
   */
  const LayoutTags: seq<(string, seq<Selector>)> := [
    ("header", [ByTag("header"), ByTagAttrContains("div", "id", "header"),
                ByTagAttrContains("div", "class", "header")]),
    ("nav", [ByTag("nav"), ByTagAttrContains("ul", "id", "menu"), ByTagAttrContains("ul", "class", "nav"),
             ByTagAttrContains("div", "id", "menu"), ByTagAttrContains("div", "class", "nav")]),
    ("main", [ByTag("main"), ByTag("article"), ByTagAttrContains("section", "id", "content"),
              ByTagAttrContains("div", "id", "content"), ByTagAttrContains("div", "class", "main")]),
    ("footer", [ByTag("footer"), ByTagAttrContains("div", "id", "footer"),
                ByTagAttrContains("div", "class", "footer")]),
    ("carousel", [ByTagAttrContains("div", "class", "carousel"), ByTagAttrContains("div", "class", "slider")]),
    ("form", [ByTag("form")])
  ]

  const HeadingTags: set<string> := {"h1", "h2", "h3", "h4", "h5", "h6"}
  const FieldTags: set<string> := {"input", "select", "textarea"}

  /** Every key the layout detector can write. */
  const LayoutKeys: set<string> := {
    "header_presente", "nav_itens", "main_presente", "footer_presente",
    "carousel_imagens", "carousel_sem_alt", "form_campos", "form_rotulados"
  }

  /** A layout value: a count or presence flag, or the boolean `form_rotulados`. */
  datatype LayoutValue = Num(n: int) | Flag(b: bool)

  /** The nested `layout` dictionary: a key is present only for a region that was found. */
  type Layout = map<string, LayoutValue>

  /**
   * The feature record. The seven metrics and the layout are always there;
   * `falhas_contraste` and `label_score_acessibilidade` are added by the
   * analyses, not by the extractor.
   */
  datatype FeatureRecord = FeatureRecord(
    imagensSemAlt: nat,
    pctLinksGenericos: real,
    langPresente: nat,
    errosHierarquia: nat,
    inputsSemLabel: nat,
    ariaPresente: nat,
    videosSemCaptions: nat,
    layout: Layout,
    falhasContraste: Option<nat>,
    labelScore: Option<int>)

  // ---------------------------------------------------------------- metrics

  /** An image whose `alt` (empty when absent) is empty once stripped. */
  predicate MissingAlt(img: Node) {
    Strings.Strip(AttrOr(img, "alt", "")) == ""
  }

  /** imagens_sem_alt: the images below `ns` whose alternative text is missing or blank. */
  function ImagensSemAlt(ns: seq<Node>): (r: nat)
    ensures r <= |FindAll(ns, {"img"})|
  {
    Count(FindAll(ns, {"img"}), MissingAlt)
  }

  /** An image with no `alt` attribute, or one made only of whitespace. */
  predicate AltAbsentOrBlank(img: Node) {
    Attr(img, "alt").None? || Strings.AllSpace(Attr(img, "alt").value)
  }

  /** imagens_sem_alt counts exactly the images whose `alt` is absent or all whitespace. */
  lemma ImagensSemAltCountsBlankAlts(ns: seq<Node>)
    ensures ImagensSemAlt(ns) == Count(FindAll(ns, {"img"}), AltAbsentOrBlank)
  {
    var imgs := FindAll(ns, {"img"});
    forall i | 0 <= i < |imgs| ensures MissingAlt(imgs[i]) == AltAbsentOrBlank(imgs[i]) {
      assert Strings.AllSpace("");
    }
    CountSame(imgs, MissingAlt, AltAbsentOrBlank);
  }

  /** The images without alternative text of two forests side by side add up. */
  lemma ImagensSemAltConcat(a: seq<Node>, b: seq<Node>)
    ensures ImagensSemAlt(a + b) == ImagensSemAlt(a) + ImagensSemAlt(b)
  {
    FindAllConcat(a, b, {"img"});
    CountConcat(FindAll(a, {"img"}), FindAll(b, {"img"}), MissingAlt);
  }

  /** The count does not depend on the order in which the images appear. */
  lemma ImagensSemAltIgnoresOrder(a: seq<Node>, b: seq<Node>)
    requires multiset(FindAll(a, {"img"})) == multiset(FindAll(b, {"img"}))
    ensures ImagensSemAlt(a) == ImagensSemAlt(b)
  {
    CountPermutation(FindAll(a, {"img"}), FindAll(b, {"img"}), MissingAlt);
  }

  /** A link whose text, stripped and lower-cased, is one of the generic phrases. */
  predicate IsGenericLink(a: Node) {
    a.Element? && Strings.Lower(Strings.Strip(TextOf(a.children))) in GenericTexts
  }

  /** The links below `ns`. */
  function Links(ns: seq<Node>): seq<Node> {
    FindAll(ns, {"a"})
  }

  /**
   * pct_links_genericos: the share of links below `ns` that are generic, as
   * a percentage; 0 when there is no link at all, 100 exactly when every
   * link is generic.
   */
  function PctLinksGenericos(ns: seq<Node>): (r: real)
    ensures 0.0 <= r <= 100.0
    ensures r == 0.0 <==> Count(Links(ns), IsGenericLink) == 0
    ensures r == 100.0 <==> |Links(ns)| > 0 && Count(Links(ns), IsGenericLink) == |Links(ns)|
  {
    Percent(Count(Links(ns), IsGenericLink), |Links(ns)|)
  }

  /**
   * `(part / whole) * 100`, or 0 for an empty whole: a percentage that
   * scales back to `100 * part`.
   */
  function Percent(part: nat, whole: nat): (r: real)
    requires part <= whole
    ensures 0.0 <= r <= 100.0
    ensures whole == 0 ==> r == 0.0
    ensures r == 0.0 <==> part == 0
    ensures r == 100.0 <==> whole > 0 && part == whole
    ensures r * (whole as real) == 100.0 * (part as real)
  {
    if whole > 0 then
      var q := part as real / whole as real;
      assert q * (whole as real) == part as real;
      calc {
        (q * 100.0) * (whole as real);
        100.0 * (q * (whole as real));
        100.0 * (part as real);
      }
      q * 100.0
    else 0.0
  }

  predicate IsHtml(n: Node) {
    n.Element? && n.tag == "html"
  }

  /** The page's language is declared: the `lang` attribute is there and not empty. */
  predicate DeclaresLang(n: Node) {
    Attr(n, "lang").Some? && Attr(n, "lang").value != ""
  }

  /**
   * lang_presente: 1 exactly when the first `html` element in document
   * order declares a non-empty `lang`.
   */
  function LangPresente(ns: seq<Node>): (r: nat)
    ensures r <= 1
    ensures r == 1 <==>
      exists i :: 0 <= i < |Elements(ns)| && IsHtml(Elements(ns)[i]) && DeclaresLang(Elements(ns)[i])
                  && forall j :: 0 <= j < i ==> !IsHtml(Elements(ns)[j])
  {
    var es := Elements(ns);
    match FirstIndex(es, IsHtml)
    case None => 0
    case Some(k) =>
      if DeclaresLang(es[k]) then 1
      else
        assert forall i :: 0 <= i < |es| && IsHtml(es[i]) && (forall j :: 0 <= j < i ==> !IsHtml(es[j])) ==> i == k;
        0
  }

  /** The level of a heading element: the digit of `h1` ... `h6`. */
  function Level(h: Node): (r: int)
    requires HasTag(h, HeadingTags)
    ensures 1 <= r <= 6
    ensures h.tag == "h" + [Strings.DigitChar(r)]
  {
    Strings.DigitValue(h.tag[1])
  }

  /** The levels of the headings below `ns`, in document order. */
  function HeadingLevels(ns: seq<Node>): (r: seq<int>)
    ensures |r| == |FindAll(ns, HeadingTags)|
    ensures forall i :: 0 <= i < |r| ==> 1 <= r[i] <= 6
    ensures forall i :: 0 <= i < |r| ==> r[i] == Level(FindAll(ns, HeadingTags)[i])
  {
    var hs := FindAll(ns, HeadingTags);
    seq(|hs|, i requires 0 <= i < |hs| => Level(hs[i]))
  }

  /**
   * erros_hierarquia over a list of levels: how many headings go down more
   * than one level from the heading before them.
   */
  function HierarchyErrors(levels: seq<int>): (r: nat)
    ensures r <= if |levels| == 0 then 0 else |levels| - 1
  {
    if |levels| <= 1 then 0
    else
      HierarchyErrors(levels[..|levels| - 1])
      + (if levels[|levels| - 1] > levels[|levels| - 2] + 1 then 1 else 0)
  }

  /** Heading `i` goes down more than one level from heading `i - 1`. */
  predicate IsJump(levels: seq<int>, i: nat) {
    1 <= i < |levels| && levels[i] > levels[i - 1] + 1
  }

  /** The positions that skip a level. */
  function Jumps(levels: seq<int>): set<nat> {
    set i: nat | i < |levels| && IsJump(levels, i)
  }

  /** erros_hierarquia is the number of positions where a level is skipped. */
  lemma {:induction false} HierarchyErrorsCountsJumps(levels: seq<int>)
    ensures HierarchyErrors(levels) == |Jumps(levels)|
  {
    if |levels| <= 1 {
      assert Jumps(levels) == {};
    } else {
      var n := |levels|;
      var prefix := levels[..n - 1];
      HierarchyErrorsCountsJumps(prefix);
      JumpsSnoc(levels);
      assert n - 1 !in Jumps(prefix);
    }
  }

  /** The skips of a list are those of its prefix, plus its last position when that one skips. */
  lemma JumpsSnoc(levels: seq<int>)
    requires |levels| >= 2
    ensures var n := |levels|;
      Jumps(levels) == Jumps(levels[..n - 1]) + (if IsJump(levels, n - 1) then {n - 1} else {})
  {
    var n := |levels|;
    var prefix := levels[..n - 1];
    var extra: set<nat> := if IsJump(levels, n - 1) then {n - 1} else {};
    forall i | i in Jumps(levels) ensures i in Jumps(prefix) + extra {
      if i < n - 1 {
        assert IsJump(prefix, i);
      }
    }
    forall i | i in Jumps(prefix) + extra ensures i in Jumps(levels) {
      if i < n - 1 {
        assert IsJump(levels, i);
      }
    }
  }

  /** The heading sequences the analyser's tests and documentation work through. */
  lemma HierarchyErrorsExamples()
    ensures HierarchyErrors([1, 3]) == 1
    ensures HierarchyErrors([1, 2, 3]) == 0
    ensures HierarchyErrors([1, 3, 2]) == 1
  {
  }

  /** erros_hierarquia of a page. */
  function ErrosHierarquia(ns: seq<Node>): (r: nat)
    ensures r == |Jumps(HeadingLevels(ns))|
    ensures r <= if |FindAll(ns, HeadingTags)| == 0 then 0 else |FindAll(ns, HeadingTags)| - 1
  {
    HierarchyErrorsCountsJumps(HeadingLevels(ns));
    HierarchyErrors(HeadingLevels(ns))
  }

  /** A form field the label check applies to: its `type` is neither `hidden` nor `submit`. */
  predicate CountedField(f: Node) {
    Attr(f, "type") != Some("hidden") && Attr(f, "type") != Some("submit")
  }

  predicate IsLabelFor(l: Node, id: string) {
    l.Element? && l.tag == "label" && Attr(l, "for") == Some(id)
  }

  /** `soup.find('label', {'for': id})` finds something. */
  predicate HasLabelFor(doc: seq<Node>, id: string) {
    First(Elements(doc), (l: Node) => IsLabelFor(l, id)).Some?
  }

  /** A counted field with no (or an empty) `id`, or whose `id` no label of the page names. */
  predicate Unlabelled(doc: seq<Node>, f: Node) {
    CountedField(f) && (AttrOr(f, "id", "") == "" || !HasLabelFor(doc, f.attrs["id"]))
  }

  /** inputs_sem_label: the counted fields of the page that have no associated label. */
  function InputsSemLabel(doc: seq<Node>): (r: nat)
    ensures r <= Count(FindAll(doc, FieldTags), CountedField)
  {
    var fields := FindAll(doc, FieldTags);
    CountMonotone(fields, (f: Node) => Unlabelled(doc, f), CountedField);
    Count(fields, (f: Node) => Unlabelled(doc, f))
  }

  /** A counted field with a non-empty `id` is unlabelled exactly when no label of the page has that `for`. */
  lemma UnlabelledIff(doc: seq<Node>, f: Node)
    requires CountedField(f) && AttrOr(f, "id", "") != ""
    ensures Unlabelled(doc, f) <==>
      forall i :: 0 <= i < |Elements(doc)| ==> !IsLabelFor(Elements(doc)[i], f.attrs["id"])
  {
  }

  predicate HasRole(n: Node) {
    n.Element? && "role" in n.attrs
  }

  /** aria_presente: 1 exactly when some element of the page carries a `role` attribute. */
  function AriaPresente(ns: seq<Node>): (r: nat)
    ensures r <= 1
    ensures r == 1 <==> exists i :: 0 <= i < |Elements(ns)| && HasRole(Elements(ns)[i])
  {
    match FirstIndex(Elements(ns), HasRole)
    case None => 0
    case Some(_) => 1
  }

  predicate IsCaptionTrack(t: Node) {
    t.Element? && t.tag == "track" && Attr(t, "kind") == Some("captions")
  }

  /** A video with no `track kind="captions"` anywhere below it. */
  predicate LacksCaptions(v: Node) {
    v.Element? && First(Elements(v.children), IsCaptionTrack).None?
  }

  /** videos_sem_captions: the videos of the page without a captions track. */
  function VideosSemCaptions(ns: seq<Node>): (r: nat)
    ensures r <= |FindAll(ns, {"video"})|
  {
    Count(FindAll(ns, {"video"}), LacksCaptions)
  }

  /** A video lacks captions exactly when none of the elements below it is a captions track. */
  lemma LacksCaptionsIff(v: Node)
    requires v.Element?
    ensures LacksCaptions(v) <==>
      forall i :: 0 <= i < |Elements(v.children)| ==> !IsCaptionTrack(Elements(v.children)[i])
  {
  }

  // ----------------------------------------------------------------- layout

  /**
   * `[select_one(s) for s in selectors if select_one(s)]`: the first match
   * of every selector that matches, in selector order.
   */
  function Matched(doc: seq<Node>, sels: seq<Selector>): (r: seq<Node>)
    ensures forall i :: 0 <= i < |r| ==> r[i].Element?
  {
    if sels == [] then []
    else
      var rest := Matched(doc, sels[1..]);
      match SelectOne(doc, sels[0])
      case Some(n) => [n] + rest
      case None => rest
  }

  predicate SelectorMatches(doc: seq<Node>, sel: Selector) {
    SelectOne(doc, sel).Some?
  }

  /**
   * The element chosen for a category: nothing when no selector matches;
   * otherwise the first node in document order matched by the first
   * selector that matches anything.
   */
  lemma {:induction false} MatchedChoosesFirstSelector(doc: seq<Node>, sels: seq<Selector>)
    ensures Matched(doc, sels) == [] <==> FirstIndex(sels, s => SelectorMatches(doc, s)).None?
    ensures Matched(doc, sels) != [] ==>
      Some(Matched(doc, sels)[0]) == SelectOne(doc, sels[FirstIndex(sels, s => SelectorMatches(doc, s)).value])
  {
    if sels != [] {
      MatchedChoosesFirstSelector(doc, sels[1..]);
      var p := s => SelectorMatches(doc, s);
      if !p(sels[0]) {
        match FirstIndex(sels[1..], p)
        case None =>
        case Some(i) =>
          assert sels[1..][i] == sels[i + 1];
      }
    }
  }

  /** The keys a found region of category `key` writes. */
  function CategoryKeys(key: string): set<string> {
    if key == "nav" then {"nav_itens"}
    else if key == "form" then {"form_campos", "form_rotulados"}
    else if key == "carousel" then {"carousel_imagens", "carousel_sem_alt"}
    else {key + "_presente"}
  }

  /**
   * What one found region of category `key` writes, given the element chosen
   * for it: the number of links of a menu, the number of fields of a form
   * and whether the whole page has no unlabelled field, the number of images
   * of a carousel and how many of them lack alternative text, and otherwise
   * the presence flag 1.
   */
  function CategoryWrites(key: string, element: Node, semLabel: nat): (r: Layout)
    requires element.Element?
    ensures r.Keys == CategoryKeys(key)
    ensures key == "carousel" ==> r["carousel_sem_alt"].Num? && r["carousel_imagens"].Num?
                                  && 0 <= r["carousel_sem_alt"].n <= r["carousel_imagens"].n
    ensures key == "form" ==> (r["form_rotulados"] == Flag(true) <==> semLabel == 0)
    ensures key !in {"nav", "form", "carousel"} ==> r[key + "_presente"] == Num(1)
  {
    if key == "nav" then
      map["nav_itens" := Num(|FindAll(element.children, {"a"})|)]
    else if key == "form" then
      map["form_campos" := Num(|FindAll(element.children, FieldTags)|),
          "form_rotulados" := Flag(semLabel == 0)]
    else if key == "carousel" then
      map["carousel_imagens" := Num(|FindAll(element.children, {"img"})|),
          "carousel_sem_alt" := Num(ImagensSemAlt(element.children))]
    else
      map[key + "_presente" := Num(1)]
  }

  /** The keys the categories of `table` can write. */
  function TableKeysOf(table: seq<(string, seq<Selector>)>): set<string> {
    if table == [] then {} else TableKeysOf(table[..|table| - 1]) + CategoryKeys(table[|table| - 1].0)
  }

  /**
   * The layout after the categories of `table` have been processed in order;
   * `semLabel` is the page's inputs_sem_label. Only keys of the table's
   * categories are written.
   */
  function LayoutOf(doc: seq<Node>, table: seq<(string, seq<Selector>)>, semLabel: nat): (r: Layout)
    ensures r.Keys <= TableKeysOf(table)
  {
    if table == [] then map[]
    else LayoutOf(doc, table[..|table| - 1], semLabel) + EntryWrites(doc, table[|table| - 1], semLabel)
  }

  /**
   * What one entry of a region table writes: nothing when none of its
   * selectors matches, otherwise what its category writes for the chosen
   * element.
   */
  function EntryWrites(doc: seq<Node>, entry: (string, seq<Selector>), semLabel: nat): (r: Layout)
    ensures r.Keys == if Matched(doc, entry.1) == [] then {} else CategoryKeys(entry.0)
  {
    var elements := Matched(doc, entry.1);
    if elements == [] then map[] else CategoryWrites(entry.0, elements[0], semLabel)
  }

  /** The elements that the selectors of table entry `k` find, in selector order. */
  function Region(doc: seq<Node>, k: nat): seq<Node>
    requires k < |LayoutTags|
  {
    Matched(doc, LayoutTags[k].1)
  }

  /** What table entry `k` contributes to the layout: nothing when its region is not found. */
  function Written(doc: seq<Node>, k: nat, semLabel: nat): (r: Layout)
    requires k < |LayoutTags|
    ensures r.Keys == if Region(doc, k) == [] then {} else CategoryKeys(LayoutTags[k].0)
  {
    EntryWrites(doc, LayoutTags[k], semLabel)
  }

  /** Processing one more entry of a table adds what that entry writes. */
  lemma LayoutOfSnoc(doc: seq<Node>, table: seq<(string, seq<Selector>)>, k: nat, semLabel: nat)
    requires k < |table|
    ensures LayoutOf(doc, table[..k + 1], semLabel) == LayoutOf(doc, table[..k], semLabel) + EntryWrites(doc, table[k], semLabel)
  {
    assert table[..k + 1][..k] == table[..k];
  }

  /** The layout of a six-entry table, entry by entry. */
  lemma LayoutOfSix(doc: seq<Node>, table: seq<(string, seq<Selector>)>, semLabel: nat)
    requires |table| == 6
    ensures LayoutOf(doc, table, semLabel)
         == EntryWrites(doc, table[0], semLabel) + EntryWrites(doc, table[1], semLabel)
          + EntryWrites(doc, table[2], semLabel) + EntryWrites(doc, table[3], semLabel)
          + EntryWrites(doc, table[4], semLabel) + EntryWrites(doc, table[5], semLabel)
  {
    assert table[..0] == [];
    LayoutOfSnoc(doc, table, 0, semLabel);
    assert map[] + EntryWrites(doc, table[0], semLabel) == EntryWrites(doc, table[0], semLabel);
    LayoutOfSnoc(doc, table, 1, semLabel);
    LayoutOfSnoc(doc, table, 2, semLabel);
    LayoutOfSnoc(doc, table, 3, semLabel);
    LayoutOfSnoc(doc, table, 4, semLabel);
    LayoutOfSnoc(doc, table, 5, semLabel);
    assert table[..6] == table;
  }

  /** The layout of the whole region table, entry by entry. */
  lemma LayoutUnrolled(doc: seq<Node>, semLabel: nat)
    ensures LayoutOf(doc, LayoutTags, semLabel)
         == Written(doc, 0, semLabel) + Written(doc, 1, semLabel) + Written(doc, 2, semLabel)
          + Written(doc, 3, semLabel) + Written(doc, 4, semLabel) + Written(doc, 5, semLabel)
  {
    LayoutOfSix(doc, LayoutTags, semLabel);
  }

  /** The categories of the region table and the keys each of them writes. */
  lemma TableKeys()
    ensures CategoryKeys(LayoutTags[0].0) == {"header_presente"}
    ensures CategoryKeys(LayoutTags[1].0) == {"nav_itens"}
    ensures CategoryKeys(LayoutTags[2].0) == {"main_presente"}
    ensures CategoryKeys(LayoutTags[3].0) == {"footer_presente"}
    ensures CategoryKeys(LayoutTags[4].0) == {"carousel_imagens", "carousel_sem_alt"}
    ensures CategoryKeys(LayoutTags[5].0) == {"form_campos", "form_rotulados"}
  {
    assert "header" + "_presente" == "header_presente";
    assert "main" + "_presente" == "main_presente";
    assert "footer" + "_presente" == "footer_presente";
  }

  /** No two categories of the table write the same key. */
  lemma CategoryKeysDisjoint(j: nat, k: nat, key: string)
    requires j < |LayoutTags| && k < |LayoutTags| && j != k
    requires key in CategoryKeys(LayoutTags[k].0)
    ensures key !in CategoryKeys(LayoutTags[j].0)
  {
    TableKeys();
  }

  /**
   * A key of category `k` is in the layout exactly when that category's
   * region was found, and then holds what the chosen element gave it.
   */
  lemma LayoutFound(doc: seq<Node>, semLabel: nat, k: nat, key: string)
    requires k < |LayoutTags| && key in CategoryKeys(LayoutTags[k].0)
    ensures var l := LayoutOf(doc, LayoutTags, semLabel);
      && (key in l <==> Region(doc, k) != [])
      && (key in l ==> l[key] == CategoryWrites(LayoutTags[k].0, Region(doc, k)[0], semLabel)[key])
  {
    var s := semLabel;
    var l := LayoutOf(doc, LayoutTags, s);
    var ws := seq(6, j requires 0 <= j < 6 => Written(doc, j, s));
    assert (key in l <==> key in ws[k]) && (key in ws[k] ==> l[key] == ws[k][key]) by {
      forall j | 0 <= j < 6 && j != k ensures key !in ws[j] {
        CategoryKeysDisjoint(j, k, key);
      }
      LayoutUnrolled(doc, s);
      MergeOfSix(ws, k, key);
    }
  }

  /** A key that only the `k`-th of six maps may hold is looked up in that one. */
  lemma MergeOfSix(ws: seq<Layout>, k: nat, key: string)
    requires |ws| == 6 && k < 6
    requires forall j :: 0 <= j < 6 && j != k ==> key !in ws[j]
    ensures key in ws[0] + ws[1] + ws[2] + ws[3] + ws[4] + ws[5] <==> key in ws[k]
    ensures key in ws[k] ==> (ws[0] + ws[1] + ws[2] + ws[3] + ws[4] + ws[5])[key] == ws[k][key]
  {
  }

  /** The detector writes no key outside the eight it knows. */
  lemma LayoutKeysKnown(doc: seq<Node>, semLabel: nat)
    ensures LayoutOf(doc, LayoutTags, semLabel).Keys <= LayoutKeys
  {
    TableKeys();
    LayoutUnrolled(doc, semLabel);
    assert Written(doc, 0, semLabel).Keys <= LayoutKeys;
    assert Written(doc, 1, semLabel).Keys <= LayoutKeys;
    assert Written(doc, 2, semLabel).Keys <= LayoutKeys;
    assert Written(doc, 3, semLabel).Keys <= LayoutKeys;
    assert Written(doc, 4, semLabel).Keys <= LayoutKeys;
    assert Written(doc, 5, semLabel).Keys <= LayoutKeys;
  }

  /**
   * The layout as the guide reads it: header, main and footer are flagged 1
   * when found; a menu holds the number of its links; a carousel holds the
   * number of its images and of its images without alternative text, which
   * never exceeds the former; a form holds the number of its fields and is
   * flagged as labelled exactly when no field of the page lacks a label; and
   * each category's keys come and go together.
   */
  lemma LayoutShape(doc: seq<Node>, semLabel: nat)
    ensures var l := LayoutOf(doc, LayoutTags, semLabel);
      && ("header_presente" in l <==> Region(doc, 0) != [])
      && ("header_presente" in l ==> l["header_presente"] == Num(1))
      && ("nav_itens" in l <==> Region(doc, 1) != [])
      && ("nav_itens" in l ==> l["nav_itens"] == Num(|FindAll(Region(doc, 1)[0].children, {"a"})|))
      && ("main_presente" in l <==> Region(doc, 2) != [])
      && ("main_presente" in l ==> l["main_presente"] == Num(1))
      && ("footer_presente" in l <==> Region(doc, 3) != [])
      && ("footer_presente" in l ==> l["footer_presente"] == Num(1))
      && ("carousel_imagens" in l <==> Region(doc, 4) != [])
      && ("carousel_sem_alt" in l <==> Region(doc, 4) != [])
      && ("carousel_imagens" in l ==> l["carousel_imagens"] == Num(|FindAll(Region(doc, 4)[0].children, {"img"})|))
      && ("carousel_sem_alt" in l ==> l["carousel_sem_alt"] == Num(ImagensSemAlt(Region(doc, 4)[0].children)))
      && ("carousel_imagens" in l ==> l["carousel_sem_alt"].Num? && l["carousel_imagens"].Num?
                                      && 0 <= l["carousel_sem_alt"].n <= l["carousel_imagens"].n)
      && ("form_campos" in l <==> Region(doc, 5) != [])
      && ("form_campos" in l ==> l["form_campos"] == Num(|FindAll(Region(doc, 5)[0].children, FieldTags)|))
      && ("form_rotulados" in l <==> Region(doc, 5) != [])
      && ("form_rotulados" in l ==> (l["form_rotulados"] == Flag(true) <==> semLabel == 0))
  {
    LayoutShapeRegions(doc, semLabel);
    LayoutShapeCounts(doc, semLabel);
  }

  /** The header, menu, main and footer keys of the layout. */
  lemma LayoutShapeRegions(doc: seq<Node>, semLabel: nat)
    ensures var l := LayoutOf(doc, LayoutTags, semLabel);
      && ("header_presente" in l <==> Region(doc, 0) != [])
      && ("header_presente" in l ==> l["header_presente"] == Num(1))
      && ("nav_itens" in l <==> Region(doc, 1) != [])
      && ("nav_itens" in l ==> l["nav_itens"] == Num(|FindAll(Region(doc, 1)[0].children, {"a"})|))
      && ("main_presente" in l <==> Region(doc, 2) != [])
      && ("main_presente" in l ==> l["main_presente"] == Num(1))
      && ("footer_presente" in l <==> Region(doc, 3) != [])
      && ("footer_presente" in l ==> l["footer_presente"] == Num(1))
  {
    TableKeys();
    LayoutFound(doc, semLabel, 0, "header_presente");
    LayoutFound(doc, semLabel, 1, "nav_itens");
    LayoutFound(doc, semLabel, 2, "main_presente");
    LayoutFound(doc, semLabel, 3, "footer_presente");
  }

  /** The carousel and form keys of the layout. */
  lemma LayoutShapeCounts(doc: seq<Node>, semLabel: nat)
    ensures var l := LayoutOf(doc, LayoutTags, semLabel);
      && ("carousel_imagens" in l <==> Region(doc, 4) != [])
      && ("carousel_sem_alt" in l <==> Region(doc, 4) != [])
      && ("carousel_imagens" in l ==> l["carousel_imagens"] == Num(|FindAll(Region(doc, 4)[0].children, {"img"})|))
      && ("carousel_sem_alt" in l ==> l["carousel_sem_alt"] == Num(ImagensSemAlt(Region(doc, 4)[0].children)))
      && ("carousel_imagens" in l ==> l["carousel_sem_alt"].Num? && l["carousel_imagens"].Num?
                                      && 0 <= l["carousel_sem_alt"].n <= l["carousel_imagens"].n)
      && ("form_campos" in l <==> Region(doc, 5) != [])
      && ("form_campos" in l ==> l["form_campos"] == Num(|FindAll(Region(doc, 5)[0].children, FieldTags)|))
      && ("form_rotulados" in l <==> Region(doc, 5) != [])
      && ("form_rotulados" in l ==> (l["form_rotulados"] == Flag(true) <==> semLabel == 0))
  {
    TableKeys();
    LayoutFound(doc, semLabel, 4, "carousel_imagens");
    LayoutFound(doc, semLabel, 4, "carousel_sem_alt");
    LayoutFound(doc, semLabel, 5, "form_campos");
    LayoutFound(doc, semLabel, 5, "form_rotulados");
  }

  // ------------------------------------------------------------- extraction

  /**
   * The layout loop of `extrair_features`: for each category in table order,
   * the first element of the first selector that matches decides what the
   * category writes.
   */
  method DetectLayout(doc: seq<Node>, semLabel: nat) returns (layout: Layout)
    ensures layout == LayoutOf(doc, LayoutTags, semLabel)
  {
    layout := map[];
    for k := 0 to |LayoutTags|
      invariant layout == LayoutOf(doc, LayoutTags[..k], semLabel)
    {
      LayoutOfSnoc(doc, LayoutTags, k, semLabel);
      layout := DetectRegion(doc, layout, LayoutTags[k], semLabel);
    }
    assert LayoutTags[..|LayoutTags|] == LayoutTags;
  }

  /**
   * One turn of the layout loop: the elements the entry's selectors find
   * and, when there are any, the first one's writes recorded.
   */
  method DetectRegion(doc: seq<Node>, layout: Layout, entry: (string, seq<Selector>), semLabel: nat)
    returns (updated: Layout)
    ensures updated == layout + EntryWrites(doc, entry, semLabel)
  {
    var elements := Matched(doc, entry.1);
    if elements != [] {
      updated := RecordRegion(layout, entry.0, elements[0], semLabel);
    } else {
      updated := layout;
      assert layout + map[] == layout;
    }
  }

  /**
   * The body of the layout loop for a found region: what the chosen element
   * of category `key` gives is recorded under that category's keys.
   */
  method RecordRegion(layout: Layout, key: string, element: Node, semLabel: nat) returns (updated: Layout)
    requires element.Element?
    ensures updated == layout + CategoryWrites(key, element, semLabel)
  {
    if key == "nav" {
      updated := layout["nav_itens" := Num(|FindAll(element.children, {"a"})|)];
      UpdateIsMerge(layout, "nav_itens", Num(|FindAll(element.children, {"a"})|));
    } else if key == "form" {
      updated := layout["form_campos" := Num(|FindAll(element.children, FieldTags)|)];
      updated := updated["form_rotulados" := Flag(semLabel == 0)];
      UpdateTwiceIsMerge(layout, "form_campos", Num(|FindAll(element.children, FieldTags)|),
                         "form_rotulados", Flag(semLabel == 0));
    } else if key == "carousel" {
      updated := layout["carousel_imagens" := Num(|FindAll(element.children, {"img"})|)];
      updated := updated["carousel_sem_alt" := Num(ImagensSemAlt(element.children))];
      UpdateTwiceIsMerge(layout, "carousel_imagens", Num(|FindAll(element.children, {"img"})|),
                         "carousel_sem_alt", Num(ImagensSemAlt(element.children)));
    } else {
      updated := layout[key + "_presente" := Num(1)];
      UpdateIsMerge(layout, key + "_presente", Num(1));
    }
  }

  /** Setting one key is merging a one-entry map. */
  lemma UpdateIsMerge(m: Layout, k: string, v: LayoutValue)
    ensures m[k := v] == m + map[k := v]
  {
  }

  /** Setting two distinct keys in turn is merging a two-entry map. */
  lemma UpdateTwiceIsMerge(m: Layout, k1: string, v1: LayoutValue, k2: string, v2: LayoutValue)
    requires k1 != k2
    ensures m[k1 := v1][k2 := v2] == m + map[k1 := v1, k2 := v2]
  {
  }

  /**
   * The record `extrair_features` returns for a page. The extractor leaves
   * the contrast count and the label to the analyses, writes only the layout
   * keys it knows, and flags the form as labelled exactly when the page's
   * inputs_sem_label is 0.
   */
  function Extracted(doc: seq<Node>): (r: FeatureRecord)
    ensures r.falhasContraste.None? && r.labelScore.None?
    ensures r.layout.Keys <= LayoutKeys
    ensures "form_rotulados" in r.layout ==> (r.layout["form_rotulados"] == Flag(true) <==> r.inputsSemLabel == 0)
  {
    var semLabel := InputsSemLabel(doc);
    LayoutKeysKnown(doc, semLabel);
    LayoutShape(doc, semLabel);
    FeatureRecord(
      ImagensSemAlt(doc), PctLinksGenericos(doc), LangPresente(doc), ErrosHierarquia(doc),
      semLabel, AriaPresente(doc), VideosSemCaptions(doc),
      LayoutOf(doc, LayoutTags, semLabel), None, None)
  }

  /**
   * `extrair_features`: computes the metrics one after the other, then fills
   * the layout by walking the region table.
   */
  method ExtractFeatures(doc: seq<Node>) returns (f: FeatureRecord)
    ensures f == Extracted(doc)
  {
    var imagensSemAlt := ImagensSemAlt(doc);
    var pct := PctLinksGenericos(doc);
    var lang := LangPresente(doc);
    var erros := ErrosHierarquia(doc);
    var semLabel := InputsSemLabel(doc);
    var aria := AriaPresente(doc);
    var videos := VideosSemCaptions(doc);
    var layout := DetectLayout(doc, semLabel);
    f := FeatureRecord(imagensSemAlt, pct, lang, erros, semLabel, aria, videos, layout, None, None);
  }

  // ------------------------------------------------------------------ audit

  /** One violation of the dynamic audit: its rule id and how many nodes it affects. */
  datatype Violation = Violation(id: string, nodeCount: nat)

  /** What the browser audit gave: a crash (any exception or timeout), or its violations. */
  datatype AuditRun = AuditCrashed | AuditReport(violations: seq<Violation>)

  /** The label score: 100 less 5 per violation, never below 0. */
  function AuditScore(violations: nat): (s: int)
    ensures 0 <= s <= 100
    ensures s == 100 <==> violations == 0
    ensures s == 0 <==> violations >= 20
  {
    if 100 - 5 * violations > 0 then 100 - 5 * violations else 0
  }

  /** More violations never raise the score. */
  lemma AuditScoreAntitone(a: nat, b: nat)
    requires a <= b
    ensures AuditScore(b) <= AuditScore(a)
  {
  }

  /** Below 20 violations, each further violation costs exactly 5 points. */
  lemma AuditScoreStep(v: nat)
    requires v < 20
    ensures AuditScore(v + 1) == AuditScore(v) - 5
  {
  }

  function TotalNodes(vs: seq<Violation>): nat {
    if vs == [] then 0 else vs[0].nodeCount + TotalNodes(vs[1..])
  }

  /** falhas_contraste: the nodes affected by `color-contrast` violations. */
  function ContrastFailures(vs: seq<Violation>): (r: nat)
    ensures r <= TotalNodes(vs)
    ensures (forall i :: 0 <= i < |vs| ==> vs[i].id != "color-contrast") ==> r == 0
  {
    if vs == [] then 0
    else (if vs[0].id == "color-contrast" then vs[0].nodeCount else 0) + ContrastFailures(vs[1..])
  }

  /** A single violation contributes its node count exactly when it is a contrast violation. */
  lemma ContrastFailuresOne(v: Violation)
    ensures ContrastFailures([v]) == if v.id == "color-contrast" then v.nodeCount else 0
  {
  }

  predicate IsContrast(v: Violation) {
    v.id == "color-contrast"
  }

  /** The contrast count is the total node count of the contrast violations alone. */
  lemma {:induction false} ContrastFailuresSumsContrastNodes(vs: seq<Violation>)
    ensures ContrastFailures(vs) == TotalNodes(Filter(vs, IsContrast))
  {
    if vs != [] {
      var init, last := vs[..|vs| - 1], vs[|vs| - 1];
      assert vs == init + [last];
      ContrastFailuresSumsContrastNodes(init);
      ContrastFailuresConcat(init, [last]);
      ContrastFailuresOne(last);
      TotalNodesConcat(Filter(init, IsContrast), if IsContrast(last) then [last] else []);
    }
  }

  /** Node totals add up over concatenation. */
  lemma {:induction false} TotalNodesConcat(a: seq<Violation>, b: seq<Violation>)
    ensures TotalNodes(a + b) == TotalNodes(a) + TotalNodes(b)
  {
    if a == [] {
      assert a + b == b;
    } else {
      assert (a + b)[1..] == a[1..] + b;
      TotalNodesConcat(a[1..], b);
    }
  }

  /** The contrast count of a concatenation of reports is the sum of their counts. */
  lemma {:induction false} ContrastFailuresConcat(a: seq<Violation>, b: seq<Violation>)
    ensures ContrastFailures(a + b) == ContrastFailures(a) + ContrastFailures(b)
  {
    if a == [] {
      assert a + b == b;
    } else {
      assert (a + b)[0] == a[0] && (a + b)[1..] == a[1..] + b;
      ContrastFailuresConcat(a[1..], b);
    }
  }

  /**
   * `gerar_label_e_features_dinamicas` after the browser: the pair
   * (score, contrast failures), or the sentinel (-1, -1) when the audit
   * crashed.
   */
  function DynamicAudit(run: AuditRun): (r: (int, int))
    ensures run.AuditCrashed? ==> r == (-1, -1)
    ensures run.AuditReport? ==> 0 <= r.0 <= 100 && 0 <= r.1
    ensures r.0 == -1 <==> run.AuditCrashed?
  {
    match run
    case AuditCrashed => (-1, -1)
    case AuditReport(vs) => (AuditScore(|vs|), ContrastFailures(vs) as int)
  }

  // --------------------------------------------------------------- analyses

  /** The page download: a failure (network error, bad status) or the parsed page. */
  datatype Fetch = FetchFailed | Fetched(doc: seq<Node>)

  /**
   * `analisar_url_completa`: the static features of the page plus the audit's
   * contrast count and score; no result when the download failed or the audit
   * returned the sentinel.
   */
  method AnalyzeComplete(fetch: Fetch, run: AuditRun) returns (r: Option<FeatureRecord>)
    ensures r.None? <==> fetch.FetchFailed? || run.AuditCrashed?
    ensures r.Some? ==>
      && run.AuditReport?
      && r.value == Extracted(fetch.doc).(
           falhasContraste := Some(ContrastFailures(run.violations)),
           labelScore := Some(AuditScore(|run.violations|)))
  {
    if fetch.FetchFailed? {
      return None;
    }
    var features := ExtractFeatures(fetch.doc);
    var (score, falhas) := DynamicAudit(run);
    if score == -1 {
      return None;
    }
    r := Some(features.(falhasContraste := Some(falhas as nat), labelScore := Some(score)));
  }

  /**
   * `analisar_url_rapida`: the static features of the page with
   * falhas_contraste fixed at 0; no result when the download failed.
   */
  method AnalyzeQuick(fetch: Fetch) returns (r: Option<FeatureRecord>)
    ensures r.None? <==> fetch.FetchFailed?
    ensures r.Some? ==> r.value == Extracted(fetch.doc).(falhasContraste := Some(0))
    ensures r.Some? ==> r.value.falhasContraste == Some(0) && r.value.labelScore.None?
  {
    if fetch.FetchFailed? {
      return None;
    }
    var features := ExtractFeatures(fetch.doc);
    r := Some(features.(falhasContraste := Some(0)));
  }
}
