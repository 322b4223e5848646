/**
 * The blog content table and its two queries: `getAllPosts` (the table
 * sorted newest first by `publishedAt`, on a copy) and `getPostBySlug` (the
 * first post with the given slug).
 */
module Blog {
  import opened Wrappers

  /* ---------------------------------------------------------------------- */
  /* Content model                                                           */
  /* ---------------------------------------------------------------------- */

  /** One block of an article body. */
  datatype ContentBlock =
    | Heading(text: string)
    | Paragraph(text: string)
    | List(title: Option<string>, ordered: Option<bool>, items: seq<string>)
    | Quote(text: string, author: Option<string>)

  datatype BlogPost = BlogPost(
    slug: string,
    title: string,
    excerpt: string,
    publishedAt: string,          // ISO 8601 calendar date, YYYY-MM-DD
    updatedAt: Option<string>,
    tags: seq<string>,
    readingMinutes: int,
    seoTitle: Option<string>,
    seoDescription: Option<string>,
    focusKeywords: Option<seq<string>>,
    content: seq<ContentBlock>)

  /* ---------------------------------------------------------------------- */
  /* String order                                                            */
  /* ---------------------------------------------------------------------- */

  /**
   * JavaScript's `<` on strings: lexicographic by character, a proper
   * prefix coming first.
   */
  predicate StrLess(a: string, b: string)
    decreases |a|
  {
    if a == [] then b != []
    else if b == [] then false
    else a[0] < b[0] || (a[0] == b[0] && StrLess(a[1..], b[1..]))
  }

  lemma {:induction false} StrLessIrreflexive(a: string)
    ensures !StrLess(a, a)
  {
    if a != [] {
      StrLessIrreflexive(a[1..]);
    }
  }

  lemma {:induction false} StrLessTransitive(a: string, b: string, c: string)
    requires StrLess(a, b) && StrLess(b, c)
    ensures StrLess(a, c)
    decreases |a|
  {
    if a != [] && a[0] == b[0] && b[0] == c[0] {
      StrLessTransitive(a[1..], b[1..], c[1..]);
    }
  }

  lemma {:induction false} StrLessTotal(a: string, b: string)
    requires a != b
    ensures StrLess(a, b) || StrLess(b, a)
    decreases |a|
  {
    if a != [] && b != [] && a[0] == b[0] {
      StrLessTotal(a[1..], b[1..]);
    }
  }

  /* ---------------------------------------------------------------------- */
  /* ISO dates: string order is calendar order                               */
  /* ---------------------------------------------------------------------- */

  predicate IsDigit(c: char) {
    '0' <= c <= '9'
  }

  predicate AllDigits(s: string) {
    forall i :: 0 <= i < |s| ==> IsDigit(s[i])
  }

  /** `YYYY-MM-DD`. */
  predicate IsIsoDate(s: string) {
    |s| == 10 && s[4] == '-' && s[7] == '-'
    && AllDigits(s[..4]) && AllDigits(s[5..7]) && AllDigits(s[8..])
  }

  function Pow10(n: nat): (r: nat)
    ensures r >= 1
  {
    if n == 0 then 1 else 10 * Pow10(n - 1)
  }

  /** The number a string of decimal digits denotes. */
  function DigitsValue(s: string): (v: nat)
    requires AllDigits(s)
    ensures v < Pow10(|s|)
  {
    if s == [] then 0
    else
      var d := s[0] as int - '0' as int;
      var rest := DigitsValue(s[1..]);
      DigitValueBound(d, rest, Pow10(|s| - 1));
      d * Pow10(|s| - 1) + rest
  }

  lemma DigitValueBound(d: int, rest: nat, p: nat)
    requires 0 <= d <= 9 && rest < p
    ensures d * p + rest < 10 * p
  {
    assert d * p <= 9 * p;
  }

  function Year(s: string): nat requires IsIsoDate(s) { DigitsValue(s[..4]) }
  function Month(s: string): nat requires IsIsoDate(s) { DigitsValue(s[5..7]) }
  function Day(s: string): nat requires IsIsoDate(s) { DigitsValue(s[8..]) }

  /** Calendar order on dates: by year, then month, then day. */
  predicate Earlier(a: string, b: string)
    requires IsIsoDate(a) && IsIsoDate(b)
  {
    Year(a) < Year(b)
    || (Year(a) == Year(b) && (Month(a) < Month(b) || (Month(a) == Month(b) && Day(a) < Day(b))))
  }

  /** Comparing equal-length prefixes first, then the rest. */
  lemma {:induction false} StrLessConcat(x: string, y: string, x': string, y': string)
    requires |x| == |x'|
    ensures StrLess(x + y, x' + y') <==> StrLess(x, x') || (x == x' && StrLess(y, y'))
    decreases |x|
  {
    if x == [] {
      assert x + y == y && x' + y' == y';
    } else {
      assert (x + y)[0] == x[0] && (x' + y')[0] == x'[0];
      assert (x + y)[1..] == x[1..] + y && (x' + y')[1..] == x'[1..] + y';
      StrLessConcat(x[1..], y, x'[1..], y');
      if x[0] == x'[0] {
        assert x == x' <==> x[1..] == x'[1..] by {
          assert x == [x[0]] + x[1..] && x' == [x'[0]] + x'[1..];
        }
      }
    }
  }

  /** Positional notation: the leading digit decides, then the rest. */
  lemma LeadingDigitOrder(dx: int, dy: int, rx: nat, ry: nat, p: nat)
    requires 0 <= dx <= 9 && 0 <= dy <= 9 && rx < p && ry < p
    ensures dx * p + rx < dy * p + ry <==> dx < dy || (dx == dy && rx < ry)
    ensures dx * p + rx == dy * p + ry <==> dx == dy && rx == ry
  {
    if dx < dy {
      assert (dx + 1) * p <= dy * p;
    } else if dy < dx {
      assert (dy + 1) * p <= dx * p;
    }
  }

  /** On digit strings of one length, string order is numeric order. */
  lemma {:induction false} DigitsOrder(x: string, y: string)
    requires |x| == |y| && AllDigits(x) && AllDigits(y)
    ensures StrLess(x, y) <==> DigitsValue(x) < DigitsValue(y)
    ensures x == y <==> DigitsValue(x) == DigitsValue(y)
  {
    if x != [] {
      DigitsOrder(x[1..], y[1..]);
      LeadingDigitOrder(x[0] as int - '0' as int, y[0] as int - '0' as int,
                        DigitsValue(x[1..]), DigitsValue(y[1..]), Pow10(|x| - 1));
      assert x == [x[0]] + x[1..] && y == [y[0]] + y[1..];
    }
  }

  lemma IsoDateParts(s: string)
    requires IsIsoDate(s)
    ensures s == s[..4] + ("-" + (s[5..7] + ("-" + s[8..])))
  {
  }

  /** For ISO dates, JavaScript's string `<` is calendar order. */
  lemma IsoStringOrderIsChronological(a: string, b: string)
    requires IsIsoDate(a) && IsIsoDate(b)
    ensures StrLess(a, b) <==> Earlier(a, b)
  {
    IsoDateParts(a);
    IsoDateParts(b);
    DigitsOrder(a[..4], b[..4]);
    DigitsOrder(a[5..7], b[5..7]);
    DigitsOrder(a[8..], b[8..]);
    StrLessConcat(a[8..], [], b[8..], []);
    StrLessConcat("-", a[8..], "-", b[8..]);
    StrLessConcat(a[5..7], "-" + a[8..], b[5..7], "-" + b[8..]);
    StrLessConcat("-", a[5..7] + ("-" + a[8..]), "-", b[5..7] + ("-" + b[8..]));
    StrLessConcat(a[..4], "-" + (a[5..7] + ("-" + a[8..])), b[..4], "-" + (b[5..7] + ("-" + b[8..])));
    StrLessIrreflexive("-");
    assert a[8..] + [] == a[8..] && b[8..] + [] == b[8..];
  }

  /* ---------------------------------------------------------------------- */
  /* getAllPosts: newest first                                               */
  /* ---------------------------------------------------------------------- */

  /**
   * The comparator `a.publishedAt < b.publishedAt ? 1 : -1` puts `a` after
   * `b` exactly when `a` was published earlier, so the sorted copy never
   * has an earlier post in front of a later one.
   */
  predicate NewestFirst(ps: seq<BlogPost>) {
    forall i, j :: 0 <= i < j < |ps| ==> !StrLess(ps[i].publishedAt, ps[j].publishedAt)
  }

  /** Inserts `p` in front of the first post published strictly before it. */
  function InsertByDate(p: BlogPost, ps: seq<BlogPost>): (r: seq<BlogPost>)
    requires NewestFirst(ps)
    ensures multiset(r) == multiset(ps) + multiset{p}
    ensures NewestFirst(r)
  {
    if ps == [] then [p]
    else if StrLess(ps[0].publishedAt, p.publishedAt) then
      InsertFrontAfterLater(p, ps);
      [p] + ps
    else
      NewestFirstTail(ps);
      var rest := InsertByDate(p, ps[1..]);
      assert ps == [ps[0]] + ps[1..];
      PrependNotEarlier(ps[0], rest, p, ps[1..]);
      [ps[0]] + rest
  }

  lemma InsertFrontAfterLater(p: BlogPost, ps: seq<BlogPost>)
    requires NewestFirst(ps) && ps != [] && StrLess(ps[0].publishedAt, p.publishedAt)
    ensures NewestFirst([p] + ps)
  {
    forall j | 0 < j < |ps|
      ensures !StrLess(p.publishedAt, ps[j].publishedAt)
    {
      if StrLess(p.publishedAt, ps[j].publishedAt) {
        StrLessTransitive(ps[0].publishedAt, p.publishedAt, ps[j].publishedAt);
      }
    }
    if StrLess(p.publishedAt, ps[0].publishedAt) {
      StrLessTransitive(p.publishedAt, ps[0].publishedAt, p.publishedAt);
      StrLessIrreflexive(p.publishedAt);
    }
  }

  lemma PrependNotEarlier(q: BlogPost, rest: seq<BlogPost>, p: BlogPost, ps: seq<BlogPost>)
    requires NewestFirst(rest) && NewestFirst([q] + ps)
    requires multiset(rest) == multiset(ps) + multiset{p}
    requires !StrLess(q.publishedAt, p.publishedAt)
    ensures NewestFirst([q] + rest)
  {
    forall j | 0 <= j < |rest|
      ensures !StrLess(q.publishedAt, rest[j].publishedAt)
    {
      assert rest[j] in multiset(rest);
      if rest[j] != p {
        assert rest[j] in multiset(ps);
        var k :| 0 <= k < |ps| && ps[k] == rest[j];
        assert ([q] + ps)[0] == q && ([q] + ps)[k + 1] == rest[j];
      }
    }
  }

  /** Insertion sort on publication date, newest first. */
  function SortNewestFirst(ps: seq<BlogPost>): (r: seq<BlogPost>)
    ensures multiset(r) == multiset(ps)
    ensures NewestFirst(r)
  {
    if ps == [] then []
    else
      assert ps == [ps[0]] + ps[1..];
      InsertByDate(ps[0], SortNewestFirst(ps[1..]))
  }

  /** No two different posts of `m` share a publication date. */
  predicate DistinctDates(m: multiset<BlogPost>) {
    forall p, q | p in m && q in m && p != q :: p.publishedAt != q.publishedAt
  }

  /**
   * When no two posts share a date, there is only one newest-first
   * arrangement: any sort honouring the comparator gives the same list.
   */
  lemma {:induction false} NewestFirstUnique(r1: seq<BlogPost>, r2: seq<BlogPost>)
    requires NewestFirst(r1) && NewestFirst(r2)
    requires multiset(r1) == multiset(r2) && DistinctDates(multiset(r1))
    ensures r1 == r2
    decreases |r1|
  {
    if r1 != [] {
      SameHead(r1, r2);
      SameTails(r1, r2);
      NewestFirstTail(r1);
      NewestFirstTail(r2);
      DistinctDatesTail(r1);
      NewestFirstUnique(r1[1..], r2[1..]);
      assert r1 == [r1[0]] + r1[1..] && r2 == [r2[0]] + r2[1..];
    }
  }

  lemma SameTails(r1: seq<BlogPost>, r2: seq<BlogPost>)
    requires r1 != [] && r2 != [] && r1[0] == r2[0] && multiset(r1) == multiset(r2)
    ensures multiset(r1[1..]) == multiset(r2[1..])
  {
    assert r1 == [r1[0]] + r1[1..] && r2 == [r2[0]] + r2[1..];
    assert multiset(r1) == multiset{r1[0]} + multiset(r1[1..]);
    assert multiset(r2) == multiset{r1[0]} + multiset(r2[1..]);
    assert multiset(r1[1..]) == multiset(r1) - multiset{r1[0]};
  }

  lemma NewestFirstTail(r: seq<BlogPost>)
    requires NewestFirst(r) && r != []
    ensures NewestFirst(r[1..])
  {
    forall i, j | 0 <= i < j < |r| - 1
      ensures !StrLess(r[1..][i].publishedAt, r[1..][j].publishedAt)
    {
      assert r[1..][i] == r[i + 1] && r[1..][j] == r[j + 1];
    }
  }

  lemma DistinctDatesTail(r: seq<BlogPost>)
    requires DistinctDates(multiset(r)) && r != []
    ensures DistinctDates(multiset(r[1..]))
  {
    assert r == [r[0]] + r[1..];
    assert multiset(r[1..]) <= multiset(r);
  }

  /** The newest post heads every newest-first arrangement. */
  lemma SameHead(r1: seq<BlogPost>, r2: seq<BlogPost>)
    requires NewestFirst(r1) && NewestFirst(r2) && r1 != []
    requires multiset(r1) == multiset(r2) && DistinctDates(multiset(r1))
    ensures r2 != [] && r1[0] == r2[0]
  {
    assert r1[0] in multiset(r2);
    if r1[0] != r2[0] {
      assert r2[0] in multiset(r1);
      var j :| 0 <= j < |r1| && r1[j] == r2[0];
      var k :| 0 <= k < |r2| && r2[k] == r1[0];
      StrLessTotal(r1[0].publishedAt, r2[0].publishedAt);
    }
  }

  /* ---------------------------------------------------------------------- */
  /* getPostBySlug: the first post with that slug                            */
  /* ---------------------------------------------------------------------- */

  function FindBySlug(ps: seq<BlogPost>, slug: string): (r: Option<BlogPost>)
    ensures r.None? <==> forall i :: 0 <= i < |ps| ==> ps[i].slug != slug
    ensures r.Some? ==> exists i :: 0 <= i < |ps| && ps[i] == r.value && ps[i].slug == slug
                          && forall j :: 0 <= j < i ==> ps[j].slug != slug
  {
    if ps == [] then None
    else if ps[0].slug == slug then Some(ps[0])
    else
      var r := FindBySlug(ps[1..], slug);
      assert forall i :: 0 < i < |ps| ==> ps[i] == ps[1..][i - 1];
      r
  }

  predicate DistinctSlugs(ps: seq<BlogPost>) {
    forall i, j :: 0 <= i < j < |ps| ==> ps[i].slug != ps[j].slug
  }

  /** With unique slugs, every post is found by its own slug. */
  lemma {:induction false} FindOwnSlug(ps: seq<BlogPost>, i: nat)
    requires DistinctSlugs(ps) && i < |ps|
    ensures FindBySlug(ps, ps[i].slug) == Some(ps[i])
  {
    if i > 0 {
      assert ps[0].slug != ps[i].slug;
      assert ps[1..][i - 1] == ps[i];
      FindOwnSlug(ps[1..], i - 1);
    }
  }



  /**
   * A newest-first listing of ISO-dated articles is in calendar order:
   * no article is listed in front of a later one.
   */
  lemma NewestFirstIsChronological(r: seq<BlogPost>)
    requires NewestFirst(r)
    requires forall i :: 0 <= i < |r| ==> IsIsoDate(r[i].publishedAt)
    ensures forall i, j :: 0 <= i < j < |r| ==> !Earlier(r[i].publishedAt, r[j].publishedAt)
  {
    forall i, j | 0 <= i < j < |r|
      ensures !Earlier(r[i].publishedAt, r[j].publishedAt)
    {
      IsoStringOrderIsChronological(r[i].publishedAt, r[j].publishedAt);
    }
  }

  /* ---------------------------------------------------------------------- */
  /* The published articles                                                  */
  /* ---------------------------------------------------------------------- */

  const NinetyDayPlan := BlogPost(
    slug := "plan-contenu-90-jours-influenceur",
    title := "Plan de contenu 90 jours pour influenceurs ambitieux",
    excerpt := "Un calendrier en trois sprints pour poser une ligne editoriale claire, nourrir ton audience et multiplier les opportunites de collaboration.",
    publishedAt := "2024-07-22",
    updatedAt := None,
    tags := ["Calendrier", "Strategie", "Influence"],
    readingMinutes := 9,
    seoTitle := Some("Plan de contenu influenceur sur 90 jours"),
    seoDescription := Some("Plan d'action 90 jours pour influenceurs: grille editoriale, routine hebdomadaire et analyse pour garder un rythme solide."),
    focusKeywords := Some([
      "plan contenu influenceur",
      "calendrier editorial influenceur",
      "strategie contenu 90 jours"
    ]),
    content := [
      Paragraph("Quand on cree du contenu au feeling, on finit par reposter les memes idees et perdre l'attention des marques. Ce plan 90 jours te donne un cadre evolutif pour produire du contenu original tout en laissant de la place a la spontaneite."),
      Heading("Sprint 1: Clarifier ton positionnement"),
      Paragraph("Liste les trois themes sur lesquels tu veux devenir incontournable. Pour chacun, note les problemes de ton audience, le vocabulaire qu'elle utilise et les formats qui marchent le mieux (reel, long form, live). Cela sert de base a ton calendrier."),
      List(Some("Besoins a couvrir"), None, [
        "Inspirer: montrer a quoi ressemble ton style de vie ou ton processus.",
        "Former: livrer une astuce actionable qu'ils peuvent tester tout de suite.",
        "Convertir: proposer une ressource ou une offre limitee lorsqu'ils sont chauds."
      ]),
      Heading("Sprint 2: Construire un hub de contenus piliers"),
      Paragraph("Chaque semaine, produis un contenu \"pilier\" (article de blog, video YouTube, guide PDF). Deduis ensuite tes formats courts a partir de cette piece maitresse. Pense en cascade: un pilier donne 3 reels, 2 tweets, 1 email."),
      List(Some("Routine hebdomadaire"), Some(true), [
        "Jour 1: recherche d'angles, mots cles et questions recues.",
        "Jour 2: script + plan de tournage.",
        "Jour 3: production et montage.",
        "Jour 4: recyclage en formats courts.",
        "Jour 5: publication et reponses aux commentaires."
      ]),
      Heading("Sprint 3: Tester et ajuster"),
      Paragraph("Le troisieme mois sert a analyser. Observe les variations de croissance, l'engagement par format et les messages recurrents de ton audience. Supprime ce qui ne sert plus, double sur les series qui prennent."),
      Quote("Un plan efficace est un cadre, pas une prison. Tu peux improviser, mais toujours sur une base solide.",
        Some("Mentor Influence Lifestyle")),
      Paragraph("En 90 jours, tu passes d'une creation instinctive a une creation intentionnelle. Ce rythme te permet de rester creatif tout en construisant une reputation durable.")
    ])

  const ProductionWorkflow := BlogPost(
    slug := "workflow-production-contenu-influenceur",
    title := "Optimiser ton workflow de production sans perdre ton style",
    excerpt := "Des conseils pragmatiques pour industrialiser la creation d'idee, le tournage et la publication, tout en gardant ta signature.",
    publishedAt := "2024-07-29",
    updatedAt := None,
    tags := ["Productivite", "Workflow", "Influence"],
    readingMinutes := 8,
    seoTitle := Some("Workflow creation contenu influenceur"),
    seoDescription := Some("Conseils pratiques pour optimiser ton workflow de production en tant qu'influenceur sans perdre ta singularite."),
    focusKeywords := Some([
      "workflow influenceur",
      "production contenu influenceur",
      "organisation createur contenu"
    ]),
    content := [
      Paragraph("La constance est souvent plus rentable que la brillante inspiration. Pour rester visible, il faut separer creation et execution, et mettre en place un process qui limite la charge mentale."),
      Heading("Collecter les idees sans se disperser"),
      Paragraph("Installe un bac a idees unique (tableur, notion, carnet). Chaque idee comporte une phrase d'accroche, le format cible et la preuve sociale potentielle. Classe-les par intention: sensibilisation, pedagogue, conversion."),
      Heading("Batcher la pre-production"),
      Paragraph("Reserver des blocs de temps distincts: 90 minutes recherche, 120 minutes script et tournage en serie. Le batching permet de produire 4 a 5 contenus en une apres-midi, ce qui libere du temps pour la promesse et la relation."),
      List(Some("Checklist avant mise en ligne"), None, [
        "Verifier la coherence du hook et du titre.",
        "Ajouter sous-titres et mots cles pertinents.",
        "Planifier la publication au bon fuseau horaire.",
        "Programmer un rappel pour repondre aux premiers commentaires."
      ]),
      Heading("Automatiser les petites taches"),
      Paragraph("Utilise les templates pour tes scripts, packs graphiques et descriptions. Les outils d'automatisation (tableurs automatises, raccourcis clavier, apps de planification) permettent de gagner du temps sans sacrifier ton ton."),
      Heading("Analyser, ranger, reutiliser"),
      Paragraph("Archive chaque contenu avec ses KPI: vues a 24h, sauvegardes, messages recus. Ce carnet de bord devient une mine d'or pour reposter, recycler, ou pitcher des collaborations avec des resultats concrets."),
      Quote("Ton style est dans l'idee et la narration. Tout le reste peut suivre un process repete.",
        Some("Directrice Editoriale"))
    ])

  const SeoForInfluencers := BlogPost(
    slug := "seo-pour-influenceurs-conseils-pratiques",
    title := "SEO pour influenceurs: transformer tes contenus en trafic durable",
    excerpt := "Guide complet pour optimiser tes articles, videos et reseaux afin d'apparaitre sur Google et d'attirer des audiences nouvelles.",
    publishedAt := "2024-08-05",
    updatedAt := None,
    tags := ["SEO", "Visibilite", "Influence"],
    readingMinutes := 10,
    seoTitle := Some("Guide SEO pour influenceurs"),
    seoDescription := Some("Guide SEO influenceur: choisir des mots cles, structurer articles et videos, renforcer la confiance et le maillage."),
    focusKeywords := Some([
      "seo influenceur",
      "optimisation contenu influenceur",
      "referencement createur"
    ]),
    content := [
      Paragraph("Les influenceurs se concentrent souvent sur TikTok ou Instagram, mais un socle SEO consolide ton autorite et ramene un trafic constant. Ce guide resume les bonnes pratiques pour chaque etape."),
      Heading("Chercher les bons mots cles"),
      Paragraph("Repere les questions que ton audience tape dans Google: tapes un mot cle dans la barre et observe les suggestions, inspire-toi des sections People Also Ask, fouille les forums et les commentaires. Note les expressions exactes pour les reutiliser."),
      List(Some("Outils gratuits utiles"), None, [
        "Google Trends pour tester la saisonnalite.",
        "AnswerThePublic ou AlsoAsked pour les questions liees.",
        "La recherche TikTok ou Pinterest pour voir quels formats se classent."
      ]),
      Heading("Structurer l'article ou la video"),
      Paragraph("Utilise un H1 clair (ou un titre video explicite), des sous-titres qui repondent a une question precise et des paragraphes courts. Integre des listes, chiffres, exemples pour augmenter la valeur percue."),
      Paragraph("Pour la video, place le mot cle dans les premieres secondes, dans la description et les hashtags. Pour l'article, ajoute une meta description engageante et des images avec texte alternatif descriptif."),
      Heading("Creer un maillage interne"),
      Paragraph("Relie tes contenus entre eux: un article peut renvoyer vers une video complementaire, une checklist telechargeable ou un guide precedent. Cela aide l'utilisateur et montre a Google que tu possedes une expertise approfondie."),
      Heading("Booster les signaux de confiance"),
      Paragraph("Collecte des temoignages, affiche tes resultats (audience, collaborations), donne des exemples concretes. Plus un contenu est credible, plus il est partage, sauvegarde, cite dans d'autres articles."),
      Quote("Le SEO n'est pas un canal a part. C'est le prolongement naturel de ton storytelling sur le long terme.",
        Some("Consultant Contenu")),
      Paragraph("En combinant optimisation technique, structure claire et regularite, tu crees un systeme de contenus qui travaille pour toi meme quand tu n'es pas en ligne.")
    ])

  /** The table in its declared order. */
  const Posts: seq<BlogPost> := [NinetyDayPlan, ProductionWorkflow, SeoForInfluencers]

  /** The table declares the slugs and dates `TableKeys` names. */
  lemma PostsKeys()
    ensures TableKeys(Posts)
  {
  }

  /** `getAllPosts`: a sorted copy, newest first; the table itself stays as declared. */
  function GetAllPosts(): (r: seq<BlogPost>)
    ensures r == [SeoForInfluencers, ProductionWorkflow, NinetyDayPlan]
  {
    PostsKeys();
    ListingOrder(Posts);
    SortNewestFirst(Posts)
  }

  /** `getPostBySlug`: the first article with the slug. */
  function GetPostBySlug(slug: string): (r: Option<BlogPost>)
    ensures r.None? <==> forall i :: 0 <= i < |Posts| ==> Posts[i].slug != slug
    ensures r.Some? ==> r.value in Posts && r.value.slug == slug
  {
    FindBySlug(Posts, slug)
  }

  /** Each article page resolves to its own article. */
  lemma GetPostBySlugFindsEach(i: nat)
    requires i < |Posts|
    ensures GetPostBySlug(Posts[i].slug) == Some(Posts[i])
  {
    PostsKeys();
    LookupEachArticle(Posts, i);
  }

  /**
   * The slugs and publication dates the table gives its articles, in
   * declaration order. The lemmas below are stated for any table with
   * these keys, whatever the article texts.
   */
  predicate TableKeys(ps: seq<BlogPost>) {
    |ps| == 3
    && ps[0].slug == "plan-contenu-90-jours-influenceur" && ps[0].publishedAt == "2024-07-22"
    && ps[1].slug == "workflow-production-contenu-influenceur" && ps[1].publishedAt == "2024-07-29"
    && ps[2].slug == "seo-pour-influenceurs-conseils-pratiques" && ps[2].publishedAt == "2024-08-05"
  }

  /** `a < b` is decided at the first position where they differ. */
  lemma {:induction false} StrLessAt(a: string, b: string, k: nat)
    requires k < |a| && k < |b| && a[..k] == b[..k] && a[k] < b[k]
    ensures StrLess(a, b)
  {
    if k > 0 {
      assert a[0] == a[..k][0] && b[0] == b[..k][0];
      assert a[1..][..k - 1] == a[..k][1..] && b[1..][..k - 1] == b[..k][1..];
      StrLessAt(a[1..], b[1..], k - 1);
    }
  }

  lemma TableDatesIncrease(ps: seq<BlogPost>)
    requires TableKeys(ps)
    ensures StrLess(ps[0].publishedAt, ps[1].publishedAt)
    ensures StrLess(ps[1].publishedAt, ps[2].publishedAt)
  {
    StrLessAt(ps[0].publishedAt, ps[1].publishedAt, 9);
    StrLessAt(ps[1].publishedAt, ps[2].publishedAt, 6);
  }

  /** Three articles with increasing dates, listed in reverse. */
  lemma ReverseOfIncreasing(ps: seq<BlogPost>)
    requires |ps| == 3
    requires StrLess(ps[0].publishedAt, ps[1].publishedAt)
    requires StrLess(ps[1].publishedAt, ps[2].publishedAt)
    ensures multiset([ps[2], ps[1], ps[0]]) == multiset(ps)
    ensures NewestFirst([ps[2], ps[1], ps[0]])
    ensures DistinctDates(multiset(ps))
  {
    StrLessTransitive(ps[0].publishedAt, ps[1].publishedAt, ps[2].publishedAt);
    StrLessIrreflexive(ps[0].publishedAt);
    StrLessIrreflexive(ps[1].publishedAt);
    StrLessIrreflexive(ps[2].publishedAt);
    if StrLess(ps[1].publishedAt, ps[0].publishedAt) {
      StrLessTransitive(ps[0].publishedAt, ps[1].publishedAt, ps[0].publishedAt);
    }
    if StrLess(ps[2].publishedAt, ps[1].publishedAt) {
      StrLessTransitive(ps[1].publishedAt, ps[2].publishedAt, ps[1].publishedAt);
    }
    if StrLess(ps[2].publishedAt, ps[0].publishedAt) {
      StrLessTransitive(ps[0].publishedAt, ps[2].publishedAt, ps[0].publishedAt);
    }
    assert ps == [ps[0], ps[1], ps[2]];
  }

  /** The listing shows the latest article first and the oldest last. */
  lemma ListingOrder(ps: seq<BlogPost>)
    requires TableKeys(ps)
    ensures SortNewestFirst(ps) == [ps[2], ps[1], ps[0]]
  {
    TableDatesIncrease(ps);
    ReverseOfIncreasing(ps);
    NewestFirstUnique(SortNewestFirst(ps), [ps[2], ps[1], ps[0]]);
  }

  lemma TableSlugsDistinct(ps: seq<BlogPost>)
    requires TableKeys(ps)
    ensures DistinctSlugs(ps)
  {
    assert ps[0].slug[0] == 'p';
    assert ps[1].slug[0] == 'w';
    assert ps[2].slug[0] == 's';
  }

  /** Each article of the table is found by its own slug. */
  lemma LookupEachArticle(ps: seq<BlogPost>, i: nat)
    requires TableKeys(ps) && i < |ps|
    ensures FindBySlug(ps, ps[i].slug) == Some(ps[i])
  {
    TableSlugsDistinct(ps);
    FindOwnSlug(ps, i);
  }
}
