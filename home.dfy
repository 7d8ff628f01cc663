/** The logic of the home page, `src/pages/Home.js`: image-path resolution,
    normalising the portfolio projects fetched from the content store into
    gallery entries, the project carousel, and the newsletter form. The
    query itself is not run here: its rows are an input (`RawProject`). */
module Home {
  import opened Common

  const NEWSLETTER_NOT_CONFIGURED := "Newsletter is not configured yet."
  const NEWSLETTER_EMPTY_EMAIL := "Please enter an email address."
  const NEWSLETTER_SUCCESS := "Thanks for subscribing! We will be in touch."
  const NEWSLETTER_FAILED := "Unable to subscribe right now. Please try again."
  const NEWSLETTER_SOURCE := "home"
  const DEFAULT_CATEGORY := "Project"

  // ---------------------------------------------------------------------------
  // Image paths

  /** `encodeURIComponent` is not modelled; the one property of it that the
      page relies on is that it never leaves a `/` in its output. */
  ghost predicate EncodesSeparator(encode: string -> string) {
    forall s :: '/' !in encode(s)
  }

  function EncodeAll(encode: string -> string, parts: seq<string>): (r: seq<string>)
    ensures |r| == |parts| && forall k :: 0 <= k < |r| ==> r[k] == encode(parts[k])
  {
    if parts == [] then [] else [encode(parts[0])] + EncodeAll(encode, parts[1..])
  }

  /** `image(file)`, with `imageBase` standing for `${PUBLIC_URL}/img`: the
      base, a `/`, then the path's `/`-separated segments,
      each encoded, joined again with `/`. */
  function Image(imageBase: string, encode: string -> string, file: string): string {
    imageBase + "/" + Join(EncodeAll(encode, Split(file, '/')), "/")
  }

  /** Encoding works segment by segment: the part after the base splits into
      exactly the encoded segments of the path, so their number is kept. */
  lemma ImageKeepsSegments(imageBase: string, encode: string -> string, file: string)
    requires EncodesSeparator(encode)
    ensures var r := Image(imageBase, encode, file);
      && StartsWith(r, imageBase + "/")
      && Split(r[|imageBase| + 1..], '/') == EncodeAll(encode, Split(file, '/'))
      && |Split(r[|imageBase| + 1..], '/')| == |Split(file, '/')|
  {
    var parts := EncodeAll(encode, Split(file, '/'));
    var r := Image(imageBase, encode, file);
    assert r[|imageBase| + 1..] == Join(parts, "/");
    assert forall p :: p in parts ==> '/' !in p;
    SplitJoin(parts, '/');
  }

  predicate IsAbsolute(file: string) {
    || StartsWith(file, "http://") || StartsWith(file, "https://") || StartsWith(file, "data:")
    || StartsWith(file, "/")
  }

  /** `resolveImage(file)`: empty stays empty, URLs and rooted paths pass
      through unchanged, anything else is an image under the base. */
  function ResolveImage(imageBase: string, encode: string -> string, file: string): (r: string)
    ensures file == "" ==> r == ""
    ensures file != "" && IsAbsolute(file) ==> r == file
    ensures file != "" && !IsAbsolute(file) ==> r == Image(imageBase, encode, file)
  {
    if file == "" then ""
    else if StartsWith(file, "http://") || StartsWith(file, "https://") || StartsWith(file, "data:") then file
    else if StartsWith(file, "/") then file
    else Image(imageBase, encode, file)
  }

  /** When the base is itself rooted (an empty `PUBLIC_URL` gives `/img`),
      every resolved path is a fixed point of `resolveImage`. */
  lemma ResolveImageIdempotent(imageBase: string, encode: string -> string, file: string)
    requires StartsWith(imageBase, "/")
    ensures var r := ResolveImage(imageBase, encode, file);
      ResolveImage(imageBase, encode, r) == r
  {
    if file != "" && !IsAbsolute(file) {
      var r := Image(imageBase, encode, file);
      assert r[..1] == imageBase[..1];
      assert StartsWith(r, "/");
    }
  }

  // ---------------------------------------------------------------------------
  // Projects

  /** One row of the project query: `title`, `category`,
      `coverImage.asset.url` and the `gallery[].asset.url` list, each of
      which may be missing. */
  datatype RawProject = RawProject(
    title: Option<string>, category: Option<string>,
    coverUrl: Option<string>, gallery: Option<seq<Option<string>>>)

  /** A portfolio entry as the gallery shows it. */
  datatype GalleryEntry = GalleryEntry(
    title: Option<string>, category: string, cover: string, images: seq<string>, fromStore: bool)

  predicate TruthyUrl(u: Option<string>) {
    u.Some? && u.value != ""
  }

  /** The number of present, non-empty URLs. */
  function TruthyCount(urls: seq<Option<string>>): nat {
    if urls == [] then 0 else (if TruthyUrl(urls[0]) then 1 else 0) + TruthyCount(urls[1..])
  }

  /** Each URL as a present value. */
  function Wrapped(r: seq<string>): (w: seq<Option<string>>)
    ensures |w| == |r| && forall k :: 0 <= k < |w| ==> w[k] == Some(r[k])
  {
    if r == [] then [] else [Some(r[0])] + Wrapped(r[1..])
  }

  /** `(gallery || []).map((img) => img?.asset?.url).filter(Boolean)`: the
      present, non-empty URLs, every one of them, in their order. */
  function GalleryUrls(urls: seq<Option<string>>): (r: seq<string>)
    ensures forall u :: u in r ==> u != ""
    ensures forall u :: u in r <==> Some(u) in urls && u != ""
    ensures IsSubsequence(Wrapped(r), urls)
    ensures |r| == TruthyCount(urls)
  {
    if urls == [] then []
    else
      var rest := GalleryUrls(urls[1..]);
      assert forall x :: x in urls <==> x == urls[0] || x in urls[1..];
      if TruthyUrl(urls[0]) then
        var r := [urls[0].value] + rest;
        assert Wrapped(r) == [urls[0]] + Wrapped(rest);
        SubsequenceCons(urls[0], Wrapped(rest), urls[1..]);
        assert [urls[0]] + urls[1..] == urls;
        r
      else
        SubsequenceDropHead(Wrapped(rest), urls);
        rest
  }

  function GalleryOf(raw: RawProject): seq<string> {
    if raw.gallery.Some? then GalleryUrls(raw.gallery.value) else []
  }

  /** The mapping of one row followed by the `.filter((item) => item.cover)`
      test: the gallery URLs if there are any, else the cover alone; the cover
      falls back to the first image; the row is dropped (`None`) exactly when
      it has neither a cover nor any gallery URL. */
  function MapProject(raw: RawProject): (r: Option<GalleryEntry>)
    ensures r.Some? <==> TruthyUrl(raw.coverUrl) || GalleryOf(raw) != []
    ensures r.Some? ==>
      var e := r.value;
      && e.cover != "" && e.images != [] && e.fromStore
      && e.images == (if GalleryOf(raw) != [] then GalleryOf(raw) else [raw.coverUrl.value])
      && e.cover == (if TruthyUrl(raw.coverUrl) then raw.coverUrl.value else e.images[0])
      && e.category == Or(raw.category, DEFAULT_CATEGORY) && e.title == raw.title
  {
    var gallery := GalleryOf(raw);
    var images := if |gallery| > 0 then gallery else if TruthyUrl(raw.coverUrl) then [raw.coverUrl.value] else [];
    if TruthyUrl(raw.coverUrl) then
      Some(GalleryEntry(raw.title, Or(raw.category, DEFAULT_CATEGORY), raw.coverUrl.value, images, true))
    else if |images| > 0 then
      assert images[0] in gallery;
      Some(GalleryEntry(raw.title, Or(raw.category, DEFAULT_CATEGORY), images[0], images, true))
    else None
  }

  /** Entries that every view of the gallery can rely on. */
  predicate Displayable(e: GalleryEntry) {
    e.cover != "" && e.images != [] && e.category != ""
  }

  /** The mapped and filtered rows of the fetch, in query order. */
  function NormalizeProjects(data: seq<RawProject>): (r: seq<GalleryEntry>)
    ensures |r| <= |data|
    ensures forall e :: e in r ==> Displayable(e)
    ensures forall k :: 0 <= k < |data| && MapProject(data[k]).Some? ==> MapProject(data[k]).value in r
    ensures forall e :: e in r ==> exists k :: 0 <= k < |data| && MapProject(data[k]) == Some(e)
  {
    if data == [] then []
    else
      var rest := NormalizeProjects(data[1..]);
      assert forall k :: 1 <= k < |data| ==> data[k] == data[1..][k - 1];
      match MapProject(data[0])
      case Some(e) => [e] + rest
      case None => rest
  }

  const PROJECT_GALLERIES: seq<GalleryEntry> := [
    GalleryEntry(Some("ByteAxis Client Portal"), "Authentication", "byteaxis login page.png",
      ["byteaxis login page.png"], false),
    GalleryEntry(Some("Mhishi Admin"), "Internal System", "mhishi/mhishiadmindashboard.png",
      ["mhishi/mhishiadmin login.png", "mhishi/mhishiadmindashboard.png"], false),
    GalleryEntry(Some("Mhishi Lawyer"), "Client Portal", "mhishi/mhishilawyer dashboard.png",
      ["mhishi/mhishilawyer login.png", "mhishi/mhishilawyer register.png", "mhishi/mhishilawyer dashboard.png"], false),
    GalleryEntry(Some("Mhishi Welcome"), "Onboarding", "mhishi/mhishiwelcome page.png",
      ["mhishi/mhishiwelcome page.png"], false),
    GalleryEntry(Some("Tengahub Commerce"), "E-commerce Suite", "tengahubecommerce home page.png",
      ["tengahubecommerce home page.png", "tengahub hot deal.png", "tengahub shopping cart.png",
       "tengahub checkout.png", "tengahub contactpage.png", "tengahub ordering process.png",
       "tengahub searchbar.png", "tengahub sign in.png", "tengahub sign up.png", "tengahub wishlist.png"], false),
    GalleryEntry(Some("Zimbabwe Legal Library"), "Membership Platform", "zimbabwelegal library home page.png",
      ["zimbabwelegal library home page.png", "zimbabwelegal library login page.png",
       "zimbabwelegal library sign up.png", "zimbabwelegal library premium access.png",
       "zimbabwelegal library welcome page.png"], false),
    GalleryEntry(Some("Simba Welding"), "Industrial Website", "simba welding welcome page.png",
      ["simba welding welcome page.png", "simba welding about page.png", "simba welding contact page.png",
       "simba welding login page.png", "simba welding quotation page.png"], false),
    GalleryEntry(Some("Music Player"), "UI Concepts", "music player dark mode.png",
      ["music player dark mode.png", "music player light mode.png"], false)
  ]

  /** `displayProjects`: the fetched entries when there are any, otherwise
      the built-in galleries. The list is never empty, and when the fetched
      entries are displayable (as normalised ones are) so is every entry. */
  function DisplayProjects(fetched: seq<GalleryEntry>): (r: seq<GalleryEntry>)
    ensures r != []
    ensures (forall e :: e in fetched ==> Displayable(e)) ==> forall e :: e in r ==> Displayable(e)
    ensures fetched != [] ==> r == fetched
    ensures fetched == [] ==> r == PROJECT_GALLERIES
  {
    assert forall k :: 0 <= k < |PROJECT_GALLERIES| ==> Displayable(PROJECT_GALLERIES[k]);
    if |fetched| > 0 then fetched else PROJECT_GALLERIES
  }

  /** Every entry the home page shows, whether fetched or built in, has a
      cover and at least one image. */
  lemma DisplayedEntriesDisplayable(data: seq<RawProject>)
    ensures forall e :: e in DisplayProjects(NormalizeProjects(data)) ==> Displayable(e)
  {
  }

  // ---------------------------------------------------------------------------
  // Carousel

  /** `(prev + 1) % n`. */
  function NextIndex(i: int, n: int): (r: int)
    requires 0 <= i < n
    ensures 0 <= r < n
    ensures r == if i == n - 1 then 0 else i + 1
  {
    (i + 1) % n
  }

  /** `(prev - 1 + n) % n`. */
  function PrevIndex(i: int, n: int): (r: int)
    requires 0 <= i < n
    ensures 0 <= r < n
    ensures r == if i == 0 then n - 1 else i - 1
  {
    (i - 1 + n) % n
  }

  /** Next and previous undo each other. */
  lemma NextPrevInverse(i: int, n: int)
    requires 0 <= i < n
    ensures PrevIndex(NextIndex(i, n), n) == i
    ensures NextIndex(PrevIndex(i, n), n) == i
  {
  }

  /** The arrows are disabled below two images; with a single image they
      would not move the index anyway. */
  lemma SingleImageFixed(i: int, n: int)
    requires n == 1 && 0 <= i < n
    ensures NextIndex(i, n) == i && PrevIndex(i, n) == i
  {
  }

  /** The project viewer: `activeProject` and `activeIndex`. */
  class Carousel {
    var activeProject: Option<GalleryEntry>
    var activeIndex: int

    ghost predicate Valid()
      reads this
    {
      && activeIndex >= 0
      && (activeProject.Some? ==> activeIndex < |activeProject.value.images|)
    }

    constructor ()
      ensures Valid() && activeProject.None? && activeIndex == 0
    {
      activeProject := None;
      activeIndex := 0;
    }

    /** `currentImage`. */
    function CurrentImage(): (r: Option<string>)
      requires Valid()
      reads this
      ensures activeProject.None? <==> r.None?
      ensures r.Some? ==> r.value in activeProject.value.images
      ensures r.Some? ==> r.value == activeProject.value.images[activeIndex]
    {
      if activeProject.Some? then Some(activeProject.value.images[activeIndex]) else None
    }

    /** `handleOpenProject`: the clicked entry, at its first image. Only
        displayed entries can be clicked, and they all have an image. */
    method OpenProject(project: GalleryEntry)
      requires Displayable(project)
      modifies this
      ensures Valid() && activeProject == Some(project) && activeIndex == 0
    {
      activeProject := Some(project);
      activeIndex := 0;
    }

    /** A click on the backdrop: the viewer closes, the index is kept. */
    method Close()
      requires Valid()
      modifies this`activeProject
      ensures Valid() && activeProject.None?
    {
      activeProject := None;
    }

    /** `handleNext`: no-op without an open project. */
    method Next()
      requires Valid()
      modifies this`activeIndex
      ensures Valid()
      ensures old(activeProject).None? ==> activeIndex == old(activeIndex)
      ensures old(activeProject).Some? ==>
        activeIndex == NextIndex(old(activeIndex), |activeProject.value.images|)
    {
      if activeProject.Some? {
        activeIndex := NextIndex(activeIndex, |activeProject.value.images|);
      }
    }

    /** `handlePrev`: no-op without an open project. */
    method Prev()
      requires Valid()
      modifies this`activeIndex
      ensures Valid()
      ensures old(activeProject).None? ==> activeIndex == old(activeIndex)
      ensures old(activeProject).Some? ==>
        activeIndex == PrevIndex(old(activeIndex), |activeProject.value.images|)
    {
      if activeProject.Some? {
        activeIndex := PrevIndex(activeIndex, |activeProject.value.images|);
      }
    }

    /** A click on a thumbnail of the open project. */
    method SelectImage(index: int)
      requires Valid() && activeProject.Some? && 0 <= index < |activeProject.value.images|
      modifies this`activeIndex
      ensures Valid() && activeIndex == index
    {
      activeIndex := index;
    }
  }

  // ---------------------------------------------------------------------------
  // Newsletter

  /** The `newsletterSignup` document. */
  datatype NewsletterSignup = NewsletterSignup(email: string, interests: string, source: string, createdAt: string)

  /** The checks of `handleNewsletterSubmit`, in order: a missing write
      client first, then an empty email. */
  function BuildSignup(client: WriteClient, email: string, interests: string, createdAt: string)
    : (r: Result<NewsletterSignup>)
    ensures client.Unconfigured? ==> r == Failure(NEWSLETTER_NOT_CONFIGURED)
    ensures client.Configured? && email == "" ==> r == Failure(NEWSLETTER_EMPTY_EMAIL)
    ensures client.Configured? && email != "" ==>
      r == Success(NewsletterSignup(email, interests, NEWSLETTER_SOURCE, createdAt))
  {
    if client.Unconfigured? then Failure(NEWSLETTER_NOT_CONFIGURED)
    else if email == "" then Failure(NEWSLETTER_EMPTY_EMAIL)
    else Success(NewsletterSignup(email, interests, NEWSLETTER_SOURCE, createdAt))
  }

  /** The newsletter form: the two inputs and the status object. */
  class NewsletterForm {
    var email: string
    var interest: string
    var status: FormStatus

    ghost predicate Valid()
      reads this
    {
      StatusValid(status)
    }

    constructor ()
      ensures Valid() && email == "" && interest == "" && status == FormStatus(false, "", "")
    {
      email := "";
      interest := "";
      status := FormStatus(false, "", "");
    }

    method Edit(newEmail: string, newInterest: string)
      modifies this`email, this`interest
      ensures email == newEmail && interest == newInterest
    {
      email := newEmail;
      interest := newInterest;
    }

    /** `handleNewsletterSubmit` up to `create`. While a signup is loading
        the subscribe button is disabled and nothing happens. Otherwise a
        failed check shows its message and sends nothing, and a valid signup
        sets the status to loading and is returned for creation. */
    method Submit(client: WriteClient, createdAt: string) returns (sent: Option<NewsletterSignup>)
      requires Valid()
      modifies this`status
      ensures Valid()
      ensures old(status.loading) ==> sent.None? && status == old(status)
      ensures !old(status.loading) ==>
        match BuildSignup(client, email, interest, createdAt)
        case Failure(e) => sent.None? && status == FormStatus(false, e, "")
        case Success(doc) => sent == Some(doc) && status == FormStatus(true, "", "")
    {
      if status.loading {
        sent := None;
        return;
      }
      match BuildSignup(client, email, interest, createdAt)
      case Failure(e) =>
        status := FormStatus(false, e, "");
        sent := None;
      case Success(doc) =>
        status := FormStatus(true, "", "");
        sent := Some(doc);
    }

    /** The continuation once `create` settles: on success both inputs are
        cleared and thanks are shown; on failure the inputs stay. */
    method SubmitSettled(outcome: CreateOutcome)
      requires Valid()
      modifies this
      ensures Valid() && !status.loading
      ensures outcome.Created? ==>
        email == "" && interest == "" && status == FormStatus(false, "", NEWSLETTER_SUCCESS)
      ensures outcome.CreateFailed? ==>
        email == old(email) && interest == old(interest) && status == FormStatus(false, NEWSLETTER_FAILED, "")
    {
      if outcome.Created? {
        email := "";
        interest := "";
        status := FormStatus(false, "", NEWSLETTER_SUCCESS);
      } else {
        status := FormStatus(false, NEWSLETTER_FAILED, "");
      }
    }
  }
}
