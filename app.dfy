/**
 * The predictive navigation guide of app.py (`gerar_guia_preditivo`) and the
 * clamp-and-round applied to the model's raw prediction.
 *
 * The guide is a string grown clause by clause. Here every clause the
 * source can write is a value of `Clause`, `Render` holds its exact text,
 * `Narrative` lists the candidates in the order the source tries them and
 * `Enabled` is the condition under which the source writes each one. The
 * clauses written are `Plan`, the enabled candidates in narrative order,
 * and the guide is their texts joined (`GuideText`).
 */
module App {
  import opened Wrappers
  import opened Seqs
  import Strings
  import opened Collector

  // ------------------------------------------------------------ the layout

  /** Python truthiness of a layout value: a non-zero count, or `True`. */
  predicate Truthy(v: LayoutValue) {
    match v
    case Num(n) => n != 0
    case Flag(b) => b
  }

  /** A layout value as a number, as Python compares it with 0 (`True` is 1). */
  function AsNumber(v: LayoutValue): int {
    match v
    case Num(n) => n
    case Flag(b) => if b then 1 else 0
  }

  /** `str(v)` for a layout value. */
  function ValueText(v: LayoutValue): string {
    match v
    case Num(n) => Strings.IntToString(n)
    case Flag(b) => if b then "True" else "False"
  }

  /** `layout.get(key, 0)`. */
  function LayoutGet(l: Layout, key: string): (v: LayoutValue)
    ensures key !in l ==> v == Num(0)
    ensures key in l ==> v == l[key]
  {
    if key in l then l[key] else Num(0)
  }

  /** `if layout.get(key):` — the key is there and its value is truthy. */
  predicate LayoutSays(l: Layout, key: string) {
    key in l && Truthy(l[key])
  }

  /** `layout.get(key, 0) > 0`. */
  predicate LayoutPositive(l: Layout, key: string) {
    AsNumber(LayoutGet(l, key)) > 0
  }

  // ------------------------------------------------------------ the clauses

  /** The three closing suggestions, by predicted score. */
  datatype Bucket = Direct | Reasonable | Alternative

  /** Above 80 the navigation is direct, above 50 reasonable, otherwise alternatives are advised. */
  function BucketOf(score: int): (b: Bucket)
    ensures b == Direct <==> score > 80
    ensures b == Reasonable <==> 50 < score <= 80
    ensures b == Alternative <==> score <= 50
  {
    if score > 80 then Direct else if score > 50 then Reasonable else Alternative
  }

  /** Every clause the guide can contain, with the values its text shows. */
  datatype Clause =
    | Opening(page: string, url: string, score: int)
    | HeaderClause
    | NavClause(items: LayoutValue)
    | GenericLinksWarning
    | CarouselClause(images: LayoutValue)
    | CarouselAltWarning(missing: LayoutValue)
    | MainClause
    | HierarchyWarning(errors: nat)
    | FormClause(fields: LayoutValue)
    | UnlabelledAlert(unlabelled: nat)
    | AllLabelled
    | FooterClause
    | ImagesWarning
    | VideosWarning(videos: nat)
    | ContrastWarning
    | AriaWarning
    | Closing(bucket: Bucket)

  /** The text each clause adds to the guide. */
  function Render(c: Clause): string {
    match c
    case Opening(page, url, score) =>
      "Análise da página " + page + " de " + url + ". Pontuação prevista: " + Strings.IntToString(score)
      + ". Guia rápido e alertas: "
    case HeaderClause => "A página começa com um cabeçalho, "
    case NavClause(v) => "seguido por um menu de navegação com " + ValueText(v) + " itens. "
    case GenericLinksWarning => "Cuidado: muitos links genéricos no menu podem confundir a navegação. "
    case CarouselClause(v) => "Em seguida, há uma galeria ou carrossel com " + ValueText(v) + " imagens. "
    case CarouselAltWarning(v) =>
      "Alerta: " + ValueText(v) + " imagens sem descrição; seu leitor de tela pode ignorá-las. "
    case MainClause => "A área de conteúdo principal segue, "
    case HierarchyWarning(n) =>
      "mas com " + Strings.IntToString(n)
      + " erros de hierarquia em títulos, o que pode bagunçar a navegação por seções. "
    case FormClause(v) => "há um formulário com " + ValueText(v) + " campos no meio ou final da página. "
    case UnlabelledAlert(n) =>
      "Alerta: " + Strings.IntToString(n) + " campos sem rótulos adequados; formulários podem ser difíceis. "
    case AllLabelled => "Todos os campos parecem rotulados corretamente. "
    case FooterClause => "A página termina com um rodapé. "
    case ImagesWarning => "Cuidado geral: Muitas imagens sem descrições alternativas em toda a página. "
    case VideosWarning(n) => "Alerta: " + Strings.IntToString(n) + " vídeos sem legendas; áudio pode ser inacessível. "
    case ContrastWarning => "Problemas de contraste detectados, o que afeta legibilidade para baixa visão. "
    case AriaWarning => "Falta de ARIA em elementos dinâmicos; interações podem não ser anunciadas. "
    case Closing(Direct) => "A navegação deve ser direta e acessível."
    case Closing(Reasonable) => "A navegação é razoável, mas evite seções problemáticas."
    case Closing(Alternative) => "Sugiro usar ferramentas alternativas como busca do site para evitar frustrações."
  }

  /** The position of each clause in the order the guide is written. */
  function Rank(c: Clause): nat {
    match c
    case Opening(_, _, _) => 0
    case HeaderClause => 1
    case NavClause(_) => 2
    case GenericLinksWarning => 3
    case CarouselClause(_) => 4
    case CarouselAltWarning(_) => 5
    case MainClause => 6
    case HierarchyWarning(_) => 7
    case FormClause(_) => 8
    case UnlabelledAlert(_) => 9
    case AllLabelled => 10
    case FooterClause => 11
    case ImagesWarning => 12
    case VideosWarning(_) => 13
    case ContrastWarning => 14
    case AriaWarning => 15
    case Closing(_) => 16
  }

  predicate IsClosing(c: Clause) {
    c.Closing?
  }

  /** `url.split('/')[-1] or 'principal'`: how the opening names the page. */
  function PageName(url: string): (r: string)
    ensures r != []
    ensures Strings.LastSegment(url) == [] ==> r == "principal"
    ensures Strings.LastSegment(url) != [] ==> r == Strings.LastSegment(url)
  {
    var last := Strings.LastSegment(url);
    if last == [] then "principal" else last
  }

  const NarrativeLength := 17

  /** The `i`-th candidate clause, filled in with the record's values. */
  function ClauseAt(f: FeatureRecord, score: int, url: string, i: nat): (c: Clause)
    requires i < NarrativeLength
    ensures Rank(c) == i
  {
    var l := f.layout;
    if i == 0 then Opening(PageName(url), url, score)
    else if i == 1 then HeaderClause
    else if i == 2 then NavClause(LayoutGet(l, "nav_itens"))
    else if i == 3 then GenericLinksWarning
    else if i == 4 then CarouselClause(LayoutGet(l, "carousel_imagens"))
    else if i == 5 then CarouselAltWarning(LayoutGet(l, "carousel_sem_alt"))
    else if i == 6 then MainClause
    else if i == 7 then HierarchyWarning(f.errosHierarquia)
    else if i == 8 then FormClause(LayoutGet(l, "form_campos"))
    else if i == 9 then UnlabelledAlert(f.inputsSemLabel)
    else if i == 10 then AllLabelled
    else if i == 11 then FooterClause
    else if i == 12 then ImagesWarning
    else if i == 13 then VideosWarning(f.videosSemCaptions)
    else if i == 14 then ContrastWarning
    else if i == 15 then AriaWarning
    else Closing(BucketOf(score))
  }

  /** All candidate clauses, in the order the guide tries them. */
  function Narrative(f: FeatureRecord, score: int, url: string): (n: seq<Clause>)
    ensures |n| == NarrativeLength
    ensures forall i :: 0 <= i < |n| ==> Rank(n[i]) == i
  {
    seq(NarrativeLength, i requires 0 <= i < NarrativeLength => ClauseAt(f, score, url, i))
  }

  /**
   * When the source writes each clause. The follow-up sentences of the nav,
   * carousel, main and form clauses are only reached inside those clauses;
   * missing layout keys read as 0 or false. The opening and the closing are
   * always written (the closing's bucket is fixed by the score), and a form
   * gets exactly one of the two label sentences, chosen by the count of
   * unlabelled fields.
   */
  predicate Enabled(f: FeatureRecord, score: int, c: Clause)
    ensures (c.Opening? || c.Closing?) ==> Enabled(f, score, c)
    ensures (c.UnlabelledAlert? || c.AllLabelled?) ==>
      (Enabled(f, score, c) <==> LayoutPositive(f.layout, "form_campos") && (c.UnlabelledAlert? <==> f.inputsSemLabel > 0))
  {
    var l := f.layout;
    match c
    case Opening(_, _, _) => true
    case HeaderClause => LayoutSays(l, "header_presente")
    case NavClause(_) => LayoutPositive(l, "nav_itens")
    case GenericLinksWarning => LayoutPositive(l, "nav_itens") && f.pctLinksGenericos > 20.0
    case CarouselClause(_) => LayoutPositive(l, "carousel_imagens")
    case CarouselAltWarning(_) => LayoutPositive(l, "carousel_imagens") && LayoutPositive(l, "carousel_sem_alt")
    case MainClause => LayoutSays(l, "main_presente")
    case HierarchyWarning(_) => LayoutSays(l, "main_presente") && f.errosHierarquia > 0
    case FormClause(_) => LayoutPositive(l, "form_campos")
    case UnlabelledAlert(_) => LayoutPositive(l, "form_campos") && f.inputsSemLabel > 0
    case AllLabelled => LayoutPositive(l, "form_campos") && f.inputsSemLabel == 0
    case FooterClause => LayoutSays(l, "footer_presente")
    case ImagesWarning => f.imagensSemAlt > 5
    case VideosWarning(_) => f.videosSemCaptions > 0
    case ContrastWarning => f.falhasContraste.Some? && f.falhasContraste.value > 0
    case AriaWarning => f.ariaPresente == 0
    case Closing(_) => true
  }

  /** `Enabled` as a test on clauses, for one record and score. */
  function Gate(f: FeatureRecord, score: int): Clause -> bool {
    c => Enabled(f, score, c)
  }

  /** The clauses the guide is made of: the enabled candidates, in narrative order. */
  function Plan(f: FeatureRecord, score: int, url: string): seq<Clause> {
    Filter(Narrative(f, score, url), Gate(f, score))
  }

  /** The text of each clause of `cs`, in order. */
  function Texts(cs: seq<Clause>): (ts: seq<string>)
    ensures |ts| == |cs|
  {
    Map(cs, Render)
  }

  /** The strings of `ss`, one after the other. */
  function Concat(ss: seq<string>): string {
    if ss == [] then "" else Concat(ss[..|ss| - 1]) + ss[|ss| - 1]
  }

  /** The guide for a record, a score and a URL: the texts of its clauses, joined. */
  function GuideText(f: FeatureRecord, score: int, url: string): string {
    Concat(Texts(Plan(f, score, url)))
  }

  // --------------------------------------------------------- the composer

  /** The texts written once the first `k` candidates have been considered. */
  function PartsSoFar(f: FeatureRecord, score: int, url: string, k: nat): seq<string>
    requires k <= NarrativeLength
  {
    if k == 0 then []
    else if Enabled(f, score, ClauseAt(f, score, url, k - 1)) then
      PartsSoFar(f, score, url, k - 1) + [Render(ClauseAt(f, score, url, k - 1))]
    else PartsSoFar(f, score, url, k - 1)
  }

  /** Considering candidate `k` appends its text exactly when it is enabled. */
  lemma Advance(f: FeatureRecord, score: int, url: string, k: nat)
    requires k < NarrativeLength
    ensures Enabled(f, score, ClauseAt(f, score, url, k)) ==>
              PartsSoFar(f, score, url, k + 1) == PartsSoFar(f, score, url, k) + [Render(ClauseAt(f, score, url, k))]
    ensures !Enabled(f, score, ClauseAt(f, score, url, k)) ==>
              PartsSoFar(f, score, url, k + 1) == PartsSoFar(f, score, url, k)
  {
  }

  /** The texts of one more clause end with its text. */
  lemma TextsSnoc(cs: seq<Clause>, c: Clause)
    ensures Texts(cs + [c]) == Texts(cs) + [Render(c)]
  {
    MapSnoc(cs, c, Render);
  }

  /** Considering the candidates one by one writes the texts of the enabled ones, in order. */
  lemma {:induction false} PartsSoFarArePlanTexts(f: FeatureRecord, score: int, url: string, k: nat)
    requires k <= NarrativeLength
    ensures PartsSoFar(f, score, url, k) == Texts(Filter(Narrative(f, score, url)[..k], Gate(f, score)))
  {
    var n := Narrative(f, score, url);
    var p := Gate(f, score);
    if k == 0 {
      assert n[..0] == [];
    } else {
      PartsSoFarArePlanTexts(f, score, url, k - 1);
      FilterSnoc(n, k - 1, p);
      var done := Filter(n[..k - 1], p);
      assert n[k - 1] == ClauseAt(f, score, url, k - 1);
      if p(n[k - 1]) {
        TextsSnoc(done, n[k - 1]);
      } else {
        assert done + [] == done;
      }
    }
  }

  /** Once every candidate has been considered, the texts written are those of the plan. */
  lemma PartsAreGuide(f: FeatureRecord, score: int, url: string)
    ensures Concat(PartsSoFar(f, score, url, NarrativeLength)) == GuideText(f, score, url)
  {
    PartsSoFarArePlanTexts(f, score, url, NarrativeLength);
    TakeAll(Narrative(f, score, url));
  }

  lemma TakeAll<T>(s: seq<T>)
    ensures s[..|s|] == s
  {
  }

  // What each single-test block of the source appends to the texts written
  // so far, stated with the block's own test. The nested blocks (nav,
  // carousel, main, form) are the `Describe` methods below.

  lemma OpeningStep(f: FeatureRecord, score: int, url: string)
    ensures PartsSoFar(f, score, url, 1) == [Render(Opening(PageName(url), url, score))]
  {
    Advance(f, score, url, 0);
  }

  lemma HeaderStep(f: FeatureRecord, score: int, url: string)
    ensures var p := PartsSoFar(f, score, url, 1);
      PartsSoFar(f, score, url, 2) == if LayoutSays(f.layout, "header_presente") then p + [Render(HeaderClause)] else p
  {
    Advance(f, score, url, 1);
  }

  lemma FooterStep(f: FeatureRecord, score: int, url: string)
    ensures var p := PartsSoFar(f, score, url, 11);
      PartsSoFar(f, score, url, 12) == if LayoutSays(f.layout, "footer_presente") then p + [Render(FooterClause)] else p
  {
    Advance(f, score, url, 11);
  }

  lemma ImagesStep(f: FeatureRecord, score: int, url: string)
    ensures var p := PartsSoFar(f, score, url, 12);
      PartsSoFar(f, score, url, 13) == if f.imagensSemAlt > 5 then p + [Render(ImagesWarning)] else p
  {
    Advance(f, score, url, 12);
  }

  lemma VideosStep(f: FeatureRecord, score: int, url: string)
    ensures var p := PartsSoFar(f, score, url, 13);
      PartsSoFar(f, score, url, 14) ==
        if f.videosSemCaptions > 0 then p + [Render(VideosWarning(f.videosSemCaptions))] else p
  {
    Advance(f, score, url, 13);
  }

  lemma ContrastStep(f: FeatureRecord, score: int, url: string)
    requires f.falhasContraste.Some?
    ensures var p := PartsSoFar(f, score, url, 14);
      PartsSoFar(f, score, url, 15) == if f.falhasContraste.value > 0 then p + [Render(ContrastWarning)] else p
  {
    assert ClauseAt(f, score, url, 14) == ContrastWarning;
    Advance(f, score, url, 14);
  }

  lemma AriaStep(f: FeatureRecord, score: int, url: string)
    ensures var p := PartsSoFar(f, score, url, 15);
      PartsSoFar(f, score, url, 16) == if f.ariaPresente == 0 then p + [Render(AriaWarning)] else p
  {
    assert ClauseAt(f, score, url, 15) == AriaWarning;
    Advance(f, score, url, 15);
  }

  /** The closing: the sentence of the score's bucket. */
  lemma ClosingStep(f: FeatureRecord, score: int, url: string)
    ensures PartsSoFar(f, score, url, 17) == PartsSoFar(f, score, url, 16) + [Render(Closing(BucketOf(score)))]
  {
    assert ClauseAt(f, score, url, 16) == Closing(BucketOf(score));
    Advance(f, score, url, 16);
  }

  /**
   * `gerar_guia_preditivo`: the opening, then each clause in turn when its
   * condition holds, then the closing for the score. The texts are collected
   * in `parts`, in the order the source appends them to `guia`, and joined
   * once at the end. The record must carry the contrast count, which the
   * source reads without a default.
   */
  method ComposeGuide(f: FeatureRecord, score: int, url: string) returns (guia: string)
    requires f.falhasContraste.Some?
    ensures guia == GuideText(f, score, url)
  {
    var parts := [Render(Opening(PageName(url), url, score))];
    OpeningStep(f, score, url);
    parts := DescribeLayout(f, score, url, parts);
    parts := GeneralAlerts(f, score, url, parts);

    if score > 80 {
      parts := parts + [Render(Closing(Direct))];
    } else if score > 50 {
      parts := parts + [Render(Closing(Reasonable))];
    } else {
      parts := parts + [Render(Closing(Alternative))];
    }
    ClosingStep(f, score, url);

    guia := Concat(parts);
    PartsAreGuide(f, score, url);
  }

  /** The description of the page's structure, region by region, as a screen reader meets them. */
  method DescribeLayout(f: FeatureRecord, score: int, url: string, before: seq<string>) returns (parts: seq<string>)
    requires before == PartsSoFar(f, score, url, 1)
    ensures parts == PartsSoFar(f, score, url, 12)
  {
    parts := before;
    if LayoutSays(f.layout, "header_presente") {
      parts := parts + [Render(HeaderClause)];
    }
    HeaderStep(f, score, url);
    parts := DescribeNav(f, score, url, parts);
    parts := DescribeCarousel(f, score, url, parts);
    parts := DescribeMain(f, score, url, parts);
    parts := DescribeForm(f, score, url, parts);
    if LayoutSays(f.layout, "footer_presente") {
      parts := parts + [Render(FooterClause)];
    }
    FooterStep(f, score, url);
  }

  /** The page-wide alerts: images, videos, contrast and ARIA, in that order. */
  method GeneralAlerts(f: FeatureRecord, score: int, url: string, before: seq<string>) returns (parts: seq<string>)
    requires f.falhasContraste.Some?
    requires before == PartsSoFar(f, score, url, 12)
    ensures parts == PartsSoFar(f, score, url, 16)
  {
    parts := before;
    if f.imagensSemAlt > 5 {
      parts := parts + [Render(ImagesWarning)];
    }
    ImagesStep(f, score, url);
    if f.videosSemCaptions > 0 {
      parts := parts + [Render(VideosWarning(f.videosSemCaptions))];
    }
    VideosStep(f, score, url);
    if f.falhasContraste.value > 0 {
      parts := parts + [Render(ContrastWarning)];
    }
    ContrastStep(f, score, url);
    if f.ariaPresente == 0 {
      parts := parts + [Render(AriaWarning)];
    }
    AriaStep(f, score, url);
  }

  /** The nav block: the menu clause, then the generic-links warning inside it. */
  method DescribeNav(f: FeatureRecord, score: int, url: string, before: seq<string>) returns (parts: seq<string>)
    requires before == PartsSoFar(f, score, url, 2)
    ensures parts == PartsSoFar(f, score, url, 4)
  {
    parts := before;
    var layout := f.layout;
    if LayoutPositive(layout, "nav_itens") {
      parts := parts + [Render(NavClause(layout["nav_itens"]))];
      if f.pctLinksGenericos > 20.0 {
        parts := parts + [Render(GenericLinksWarning)];
      }
    }
    Advance(f, score, url, 2);
    Advance(f, score, url, 3);
  }

  /** The carousel block: the gallery clause, then the missing-alt alert inside it. */
  method DescribeCarousel(f: FeatureRecord, score: int, url: string, before: seq<string>) returns (parts: seq<string>)
    requires before == PartsSoFar(f, score, url, 4)
    ensures parts == PartsSoFar(f, score, url, 6)
  {
    parts := before;
    var layout := f.layout;
    if LayoutPositive(layout, "carousel_imagens") {
      parts := parts + [Render(CarouselClause(layout["carousel_imagens"]))];
      if LayoutPositive(layout, "carousel_sem_alt") {
        parts := parts + [Render(CarouselAltWarning(layout["carousel_sem_alt"]))];
      }
    }
    Advance(f, score, url, 4);
    Advance(f, score, url, 5);
  }

  /** The main block: the content clause, then the hierarchy warning inside it. */
  method DescribeMain(f: FeatureRecord, score: int, url: string, before: seq<string>) returns (parts: seq<string>)
    requires before == PartsSoFar(f, score, url, 6)
    ensures parts == PartsSoFar(f, score, url, 8)
  {
    parts := before;
    if LayoutSays(f.layout, "main_presente") {
      parts := parts + [Render(MainClause)];
      if f.errosHierarquia > 0 {
        parts := parts + [Render(HierarchyWarning(f.errosHierarquia))];
      }
    }
    Advance(f, score, url, 6);
    Advance(f, score, url, 7);
  }

  /** The form block: the form clause, then exactly one of the two label sentences. */
  method DescribeForm(f: FeatureRecord, score: int, url: string, before: seq<string>) returns (parts: seq<string>)
    requires before == PartsSoFar(f, score, url, 8)
    ensures parts == PartsSoFar(f, score, url, 11)
  {
    parts := before;
    var layout := f.layout;
    if LayoutPositive(layout, "form_campos") {
      parts := parts + [Render(FormClause(layout["form_campos"]))];
      if f.inputsSemLabel > 0 {
        parts := parts + [Render(UnlabelledAlert(f.inputsSemLabel))];
      } else {
        parts := parts + [Render(AllLabelled)];
      }
    }
    Advance(f, score, url, 8);
    Advance(f, score, url, 9);
    Advance(f, score, url, 10);
  }

  // ------------------------------------------------- what the guide promises

  /** The candidates are listed in strictly increasing rank. */
  lemma NarrativeRanks(f: FeatureRecord, score: int, url: string)
    ensures var n := Narrative(f, score, url);
      forall i, j :: 0 <= i < j < |n| ==> Rank(n[i]) < Rank(n[j])
  {
  }

  /** The clauses of the guide come in the narrative's order: their ranks strictly increase. */
  lemma PlanOrder(f: FeatureRecord, score: int, url: string)
    ensures var p := Plan(f, score, url);
      forall i, j :: 0 <= i < j < |p| ==> Rank(p[i]) < Rank(p[j])
  {
    NarrativeRanks(f, score, url);
    FilterKeepsOrder(Narrative(f, score, url), Gate(f, score), (c: Clause) => Rank(c) as int);
  }

  /**
   * A candidate is in the guide exactly when its condition holds, and every
   * clause of the guide is the candidate of its own rank.
   */
  lemma PlanMembership(f: FeatureRecord, score: int, url: string)
    ensures forall i :: 0 <= i < NarrativeLength ==>
              (ClauseAt(f, score, url, i) in Plan(f, score, url) <==> Enabled(f, score, ClauseAt(f, score, url, i)))
    ensures forall c :: c in Plan(f, score, url) ==>
              Enabled(f, score, c) && Rank(c) < NarrativeLength && c == ClauseAt(f, score, url, Rank(c))
  {
    var n := Narrative(f, score, url);
    var p := Plan(f, score, url);
    forall i | 0 <= i < NarrativeLength
      ensures ClauseAt(f, score, url, i) in p <==> Enabled(f, score, ClauseAt(f, score, url, i))
    {
      assert n[i] == ClauseAt(f, score, url, i);
    }
    forall c | c in p
      ensures Enabled(f, score, c) && Rank(c) < NarrativeLength && c == ClauseAt(f, score, url, Rank(c))
    {
      var k :| 0 <= k < |p| && p[k] == c;
      var i :| 0 <= i < |n| && n[i] == c;
    }
  }

  /** Strictly increasing ranks grow by at least one per position. */
  lemma {:induction false} RankGap(s: seq<Clause>, a: nat, b: nat)
    requires forall x, y :: 0 <= x < y < |s| ==> Rank(s[x]) < Rank(s[y])
    requires a < |s| && b < |s|
    ensures a <= b ==> Rank(s[b]) - Rank(s[a]) >= b - a
    decreases if a < b then b - a else 0
  {
    if a < b {
      RankGap(s, a, b - 1);
    }
  }

  /** The guide opens with the opening clause. */
  lemma PlanStartsWithOpening(f: FeatureRecord, score: int, url: string)
    ensures |Plan(f, score, url)| > 0 && Plan(f, score, url)[0] == Opening(PageName(url), url, score)
  {
    var p := Plan(f, score, url);
    var opening := Opening(PageName(url), url, score);
    assert ClauseAt(f, score, url, 0) == opening;
    CandidateInPlan(f, score, url, 0);
    PlanOrder(f, score, url);
    var j :| 0 <= j < |p| && p[j] == opening;
    assert Rank(p[0]) >= 0;
    assert j == 0;
  }

  /** The guide ends with the closing of the score's bucket. */
  lemma PlanEndsWithClosing(f: FeatureRecord, score: int, url: string)
    ensures var p := Plan(f, score, url);
      |p| > 0 && p[|p| - 1] == Closing(BucketOf(score))
  {
    var p := Plan(f, score, url);
    var last := ClauseAt(f, score, url, NarrativeLength - 1);
    assert last == Closing(BucketOf(score));
    CandidateInPlan(f, score, url, NarrativeLength - 1);
    PlanOrder(f, score, url);
    var k :| 0 <= k < |p| && p[k] == last;
    assert Rank(p[|p| - 1]) < NarrativeLength by {
      PlanMembership(f, score, url);
      assert p[|p| - 1] in p;
    }
    assert k == |p| - 1;
  }

  /** The guide has exactly one closing. */
  lemma OneClosing(f: FeatureRecord, score: int, url: string)
    ensures Count(Plan(f, score, url), IsClosing) == 1
  {
    var p := Plan(f, score, url);
    PlanEndsWithClosing(f, score, url);
    PlanOrder(f, score, url);
    var k := |p| - 1;
    var last := p[k];
    assert p == p[..k] + [last];
    CountConcat(p[..k], [last], IsClosing);
    assert Count(p[..k], IsClosing) == 0 by {
      forall i | 0 <= i < k ensures !IsClosing(p[..k][i]) {
        assert p[..k][i] == p[i] && Rank(p[i]) < Rank(last);
      }
    }
    assert [last][1..] == [];
  }

  /**
   * A clause whose only enabled predecessors in rank go back to `parent`
   * comes right after the `parent` candidate, when that one is written.
   */
  lemma Predecessor(f: FeatureRecord, score: int, url: string, i: nat, parent: nat)
    requires i < |Plan(f, score, url)| && parent < Rank(Plan(f, score, url)[i])
    requires parent < NarrativeLength && ClauseAt(f, score, url, parent) in Plan(f, score, url)
    requires forall r :: parent < r < Rank(Plan(f, score, url)[i]) && r < NarrativeLength ==>
               !Enabled(f, score, ClauseAt(f, score, url, r))
    ensures 0 < i && Plan(f, score, url)[i - 1] == ClauseAt(f, score, url, parent)
  {
    var p := Plan(f, score, url);
    PlanOrder(f, score, url);
    PlanMembership(f, score, url);
    var j :| 0 <= j < |p| && p[j] == ClauseAt(f, score, url, parent);
    forall k | 0 <= k < |p| ensures !(Rank(p[j]) < Rank(p[k]) < Rank(p[i])) {
      assert p[k] in p;
    }
    NothingBetween(p, j, i);
  }

  /** In a sequence of strictly increasing ranks, an element with nothing ranked between it and another comes right before it. */
  lemma NothingBetween(s: seq<Clause>, j: nat, i: nat)
    requires forall a, b :: 0 <= a < b < |s| ==> Rank(s[a]) < Rank(s[b])
    requires j < |s| && i < |s| && Rank(s[j]) < Rank(s[i])
    requires forall k :: 0 <= k < |s| ==> !(Rank(s[j]) < Rank(s[k]) < Rank(s[i]))
    ensures i == j + 1
  {
    RankGap(s, i, j);
    assert j < i;
    assert !(Rank(s[j]) < Rank(s[j + 1]) < Rank(s[i]));
    RankGap(s, j + 1, i);
  }

  /** The generic-links warning is only written inside the nav clause: right after it. */
  lemma GenericLinksWarningFollowsNav(f: FeatureRecord, score: int, url: string)
    ensures var p := Plan(f, score, url);
      forall i :: 0 <= i < |p| && p[i] == GenericLinksWarning ==>
        0 < i && p[i - 1] == NavClause(LayoutGet(f.layout, "nav_itens"))
  {
    var p := Plan(f, score, url);
    PlanMembership(f, score, url);
    forall i | 0 <= i < |p| && p[i] == GenericLinksWarning
      ensures 0 < i && p[i - 1] == NavClause(LayoutGet(f.layout, "nav_itens"))
    {
      assert ClauseAt(f, score, url, 2) in p;
      Predecessor(f, score, url, i, 2);
    }
  }

  /** The missing-alt alert of the carousel is only written inside the carousel clause: right after it. */
  lemma CarouselAlertFollowsCarousel(f: FeatureRecord, score: int, url: string)
    ensures var p := Plan(f, score, url);
      forall i :: 0 <= i < |p| && p[i].CarouselAltWarning? ==>
        0 < i && p[i - 1] == CarouselClause(LayoutGet(f.layout, "carousel_imagens"))
  {
    var p := Plan(f, score, url);
    PlanMembership(f, score, url);
    forall i | 0 <= i < |p| && p[i].CarouselAltWarning?
      ensures 0 < i && p[i - 1] == CarouselClause(LayoutGet(f.layout, "carousel_imagens"))
    {
      assert ClauseAt(f, score, url, 4) in p;
      Predecessor(f, score, url, i, 4);
    }
  }

  /** The hierarchy warning is only written inside the main clause: right after it. */
  lemma HierarchyWarningFollowsMain(f: FeatureRecord, score: int, url: string)
    ensures var p := Plan(f, score, url);
      forall i :: 0 <= i < |p| && p[i].HierarchyWarning? ==> 0 < i && p[i - 1] == MainClause
  {
    var p := Plan(f, score, url);
    PlanMembership(f, score, url);
    forall i | 0 <= i < |p| && p[i].HierarchyWarning?
      ensures 0 < i && p[i - 1] == MainClause
    {
      assert ClauseAt(f, score, url, 6) in p;
      Predecessor(f, score, url, i, 6);
    }
  }

  /** Either label sentence is only written inside the form clause: right after it. */
  lemma LabelSentenceFollowsForm(f: FeatureRecord, score: int, url: string)
    ensures var p := Plan(f, score, url);
      forall i :: 0 <= i < |p| && (p[i].UnlabelledAlert? || p[i] == AllLabelled) ==>
        0 < i && p[i - 1] == FormClause(LayoutGet(f.layout, "form_campos"))
  {
    var p := Plan(f, score, url);
    PlanMembership(f, score, url);
    forall i | 0 <= i < |p| && (p[i].UnlabelledAlert? || p[i] == AllLabelled)
      ensures 0 < i && p[i - 1] == FormClause(LayoutGet(f.layout, "form_campos"))
    {
      assert ClauseAt(f, score, url, 8) in p;
      Predecessor(f, score, url, i, 8);
    }
  }

  /** The structural clauses, each written exactly when its layout test holds (a missing key reads as 0 or false). */
  lemma StructureGates(f: FeatureRecord, score: int, url: string)
    ensures var p := Plan(f, score, url); var l := f.layout;
      && (HeaderClause in p <==> LayoutSays(l, "header_presente"))
      && (NavClause(LayoutGet(l, "nav_itens")) in p <==> LayoutPositive(l, "nav_itens"))
      && (GenericLinksWarning in p <==> LayoutPositive(l, "nav_itens") && f.pctLinksGenericos > 20.0)
      && (CarouselClause(LayoutGet(l, "carousel_imagens")) in p <==> LayoutPositive(l, "carousel_imagens"))
      && (CarouselAltWarning(LayoutGet(l, "carousel_sem_alt")) in p <==>
            LayoutPositive(l, "carousel_imagens") && LayoutPositive(l, "carousel_sem_alt"))
      && (MainClause in p <==> LayoutSays(l, "main_presente"))
      && (HierarchyWarning(f.errosHierarquia) in p <==> LayoutSays(l, "main_presente") && f.errosHierarquia > 0)
      && (FormClause(LayoutGet(l, "form_campos")) in p <==> LayoutPositive(l, "form_campos"))
      && (UnlabelledAlert(f.inputsSemLabel) in p <==> LayoutPositive(l, "form_campos") && f.inputsSemLabel > 0)
      && (AllLabelled in p <==> LayoutPositive(l, "form_campos") && f.inputsSemLabel == 0)
      && (FooterClause in p <==> LayoutSays(l, "footer_presente"))
  {
    var l := f.layout;
    assert ClauseAt(f, score, url, 1) == HeaderClause;
    assert ClauseAt(f, score, url, 2) == NavClause(LayoutGet(l, "nav_itens"));
    assert ClauseAt(f, score, url, 3) == GenericLinksWarning;
    assert ClauseAt(f, score, url, 4) == CarouselClause(LayoutGet(l, "carousel_imagens"));
    assert ClauseAt(f, score, url, 5) == CarouselAltWarning(LayoutGet(l, "carousel_sem_alt"));
    assert ClauseAt(f, score, url, 6) == MainClause;
    assert ClauseAt(f, score, url, 7) == HierarchyWarning(f.errosHierarquia);
    assert ClauseAt(f, score, url, 8) == FormClause(LayoutGet(l, "form_campos"));
    assert ClauseAt(f, score, url, 9) == UnlabelledAlert(f.inputsSemLabel);
    assert ClauseAt(f, score, url, 10) == AllLabelled;
    assert ClauseAt(f, score, url, 11) == FooterClause;
    CandidateInPlan(f, score, url, 1);
    CandidateInPlan(f, score, url, 2);
    CandidateInPlan(f, score, url, 3);
    CandidateInPlan(f, score, url, 4);
    CandidateInPlan(f, score, url, 5);
    CandidateInPlan(f, score, url, 6);
    CandidateInPlan(f, score, url, 7);
    CandidateInPlan(f, score, url, 8);
    CandidateInPlan(f, score, url, 9);
    CandidateInPlan(f, score, url, 10);
    CandidateInPlan(f, score, url, 11);
  }

  /** The page-wide alerts, each written exactly when its threshold is passed. */
  lemma AlertGates(f: FeatureRecord, score: int, url: string)
    ensures var p := Plan(f, score, url);
      && (ImagesWarning in p <==> f.imagensSemAlt > 5)
      && (VideosWarning(f.videosSemCaptions) in p <==> f.videosSemCaptions > 0)
      && (ContrastWarning in p <==> f.falhasContraste.Some? && f.falhasContraste.value > 0)
      && (AriaWarning in p <==> f.ariaPresente == 0)
  {
    assert ClauseAt(f, score, url, 12) == ImagesWarning;
    assert ClauseAt(f, score, url, 13) == VideosWarning(f.videosSemCaptions);
    assert ClauseAt(f, score, url, 14) == ContrastWarning;
    assert ClauseAt(f, score, url, 15) == AriaWarning;
    CandidateInPlan(f, score, url, 12);
    CandidateInPlan(f, score, url, 13);
    CandidateInPlan(f, score, url, 14);
    CandidateInPlan(f, score, url, 15);
  }

  /** The `i`-th candidate is in the guide exactly when its condition holds. */
  lemma CandidateInPlan(f: FeatureRecord, score: int, url: string, i: nat)
    requires i < NarrativeLength
    ensures ClauseAt(f, score, url, i) in Plan(f, score, url) <==> Enabled(f, score, ClauseAt(f, score, url, i))
  {
    var n := Narrative(f, score, url);
    assert n[i] == ClauseAt(f, score, url, i);
  }

  /** With a form, exactly one of the two label sentences follows it; without one, neither. */
  lemma FormFollowUp(f: FeatureRecord, score: int, url: string)
    ensures var p := Plan(f, score, url);
      && (UnlabelledAlert(f.inputsSemLabel) in p || AllLabelled in p <==> LayoutPositive(f.layout, "form_campos"))
      && !(UnlabelledAlert(f.inputsSemLabel) in p && AllLabelled in p)
  {
    StructureGates(f, score, url);
  }

  /** The first of several texts opens their concatenation, and the last one closes it. */
  lemma {:induction false} ConcatEnds(ss: seq<string>)
    requires |ss| > 0
    ensures ss[0] <= Concat(ss)
    ensures |ss[|ss| - 1]| <= |Concat(ss)| && Concat(ss)[|Concat(ss)| - |ss[|ss| - 1]|..] == ss[|ss| - 1]
  {
    if |ss| > 1 {
      var init := ss[..|ss| - 1];
      assert init[0] == ss[0];
      ConcatEnds(init);
    }
  }

  /** The texts of a plan, one per clause. */
  lemma TextsAt(cs: seq<Clause>, i: nat)
    requires i < |cs|
    ensures Texts(cs)[i] == Render(cs[i])
  {
  }

  /** The guide's text opens with the opening sentence. */
  lemma GuideOpens(f: FeatureRecord, score: int, url: string)
    ensures Render(Opening(PageName(url), url, score)) <= GuideText(f, score, url)
  {
    var p := Plan(f, score, url);
    PlanStartsWithOpening(f, score, url);
    ConcatEnds(Texts(p));
    TextsAt(p, 0);
  }

  /** The guide's text ends with the closing sentence of the score's bucket. */
  lemma GuideCloses(f: FeatureRecord, score: int, url: string)
    ensures var g := GuideText(f, score, url); var closing := Render(Closing(BucketOf(score)));
      |closing| <= |g| && g[|g| - |closing|..] == closing
  {
    PlanEndsWithClosing(f, score, url);
    TextsEnd(Plan(f, score, url), Closing(BucketOf(score)));
  }

  /** The joined texts of clauses end with the text of the last clause. */
  lemma TextsEnd(cs: seq<Clause>, c: Clause)
    requires |cs| > 0 && cs[|cs| - 1] == c
    ensures var g := Concat(Texts(cs)); |Render(c)| <= |g| && g[|g| - |Render(c)|..] == Render(c)
  {
    ConcatEnds(Texts(cs));
    TextsAt(cs, |cs| - 1);
  }

  // ------------------------------------------------------- the served score

  /** `max(0, min(100, raw))`: the raw prediction held to the range 0 to 100. */
  function Clamp(raw: real): (c: real)
    ensures 0.0 <= c <= 100.0
    ensures 0.0 <= raw <= 100.0 ==> c == raw
    ensures raw < 0.0 ==> c == 0.0
    ensures raw > 100.0 ==> c == 100.0
  {
    var low := if raw < 100.0 then raw else 100.0;
    if low > 0.0 then low else 0.0
  }

  /**
   * Python's `round(x)` to an integer: the nearest integer, and of two
   * equally near ones the even one.
   */
  function RoundHalfEven(x: real): (r: int)
    ensures x - 0.5 <= r as real <= x + 0.5
    ensures (r as real - x == 0.5 || x - r as real == 0.5) ==> r % 2 == 0
  {
    var below := x.Floor;
    var frac := x - below as real;
    if frac < 0.5 then below
    else if frac > 0.5 then below + 1
    else if below % 2 == 0 then below
    else below + 1
  }

  /** An integer strictly closer than one half to `x` is what `x` rounds to. */
  lemma RoundToNearest(x: real, n: int)
    requires x - 0.5 < n as real < x + 0.5
    ensures RoundHalfEven(x) == n
  {
    var r := RoundHalfEven(x);
    assert -1.0 < r as real - n as real < 1.0;
  }

  /** Rounding never reverses an order. */
  lemma RoundMonotone(x: real, y: real)
    requires x <= y
    ensures RoundHalfEven(x) <= RoundHalfEven(y)
  {
    var rx, ry := RoundHalfEven(x), RoundHalfEven(y);
    if ry < rx {
      assert false;
    }
  }

  /** The score shown and read aloud: `round(max(0, min(100, raw)))`. */
  function ClampScore(raw: real): (s: int)
    ensures 0 <= s <= 100
    ensures raw <= 0.0 ==> s == 0
    ensures raw >= 100.0 ==> s == 100
    ensures 0.0 <= raw <= 100.0 ==> raw - 0.5 <= s as real <= raw + 0.5
  {
    RoundHalfEven(Clamp(raw))
  }

  /** A raw prediction that is already a whole score from 0 to 100 is served unchanged. */
  lemma ClampScoreKeepsWholeScores(k: int)
    requires 0 <= k <= 100
    ensures ClampScore(k as real) == k
  {
    RoundToNearest(k as real, k);
  }

  /** A higher raw prediction never gives a lower served score. */
  lemma ClampScoreMonotone(a: real, b: real)
    requires a <= b
    ensures ClampScore(a) <= ClampScore(b)
  {
    RoundMonotone(Clamp(a), Clamp(b));
  }

  /** Below the range, above it, and the ties that round to the even neighbour. */
  lemma ClampScoreExamples()
    ensures ClampScore(-15.0) == 0
    ensures ClampScore(137.0) == 100
    ensures ClampScore(80.0) == 80
    ensures ClampScore(2.5) == 2 && ClampScore(3.5) == 4
    ensures ClampScore(80.4) == 80 && ClampScore(80.6) == 81
  {
    ClampScoreKeepsWholeScores(80);
    RoundToNearest(80.4, 80);
    RoundToNearest(80.6, 81);
  }
}
