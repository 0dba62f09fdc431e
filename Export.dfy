/** The exporter: create notes.txt, fetch the deck, and for each slide in order
    append its header, download its thumbnail into image<k>.jpg and append its
    note text. Any failure stops the run and leaves the files as they are. The
    remote service and the image host are parameters (`Remote`). */
module Export {
  import opened Wrappers
  import opened Notes
  import opened Auth

  /** What happened when `grabImage` tried to fill one image file. */
  datatype Fetch =
    | CannotCreate            // os.Create failed: no file was made
    | RequestFailed           // the file was created empty, then the GET failed
    | CopyBroken(copied: nat) // the copy failed after `copied` bytes
    | Copied(size: nat)       // the copy finished after `size` bytes

  /** The error `grabImage` returns, None when it succeeds. */
  function GrabError(f: Fetch): (r: Option<DownloadError>)
    ensures r.None? <==> f.Copied? && f.size > 0
    ensures f == Copied(0) ==> r == Some(EmptyDownload)
    ensures f.CopyBroken? ==> r == Some(CopyFailed)
  {
    match f
    case CannotCreate => Some(CreateFailed)
    case RequestFailed => Some(GetFailed)
    case CopyBroken(_) => Some(CopyFailed)
    case Copied(n) => if n == 0 then Some(EmptyDownload) else None
  }

  /** The size of the file `grabImage` leaves behind, None when it created none. */
  function FileLeft(f: Fetch): (r: Option<nat>)
    ensures r.None? <==> f.CannotCreate?
    ensures GrabError(f).None? ==> r == Some(f.size) && r.value > 0
  {
    match f
    case CannotCreate => None
    case RequestFailed => Some(0)
    case CopyBroken(n) => Some(n)
    case Copied(n) => Some(n)
  }

  /** The image files after writing `file` (when there is one) under `name`. */
  function Put(images: map<string, nat>, name: string, file: Option<nat>): (files: map<string, nat>) {
    if file.Some? then images[name := file.value] else images
  }

  /** The two maps agree on `name`: both lack it, or both hold it with the same size. */
  predicate SameFile(a: map<string, nat>, b: map<string, nat>, name: string) {
    (name in a <==> name in b) && (name in a ==> a[name] == b[name])
  }

  /** The remote calls, by their arguments: the deck by token and presentation id,
      a thumbnail URL by token, presentation id and page id, and the download of a
      URL into a named file (made with the plain client, so without the token). */
  datatype Remote = Remote(
    getDeck: (Token, string) -> Option<seq<Slide>>,
    getThumbnail: (Token, string, string) -> Option<string>,
    fetchImage: (string, string) -> Fetch)

  /** What the image part of one slide's iteration does: the file it leaves
      (None when none was made) and the failure that stops the run, if any. */
  datatype Step = Step(file: Option<nat>, failure: Option<Failure>)

  /** The image part of the iteration for `slide` at 1-based position k. */
  function SlideStep(remote: Remote, token: Token, pid: string, slide: Slide, k: nat): (s: Step)
    ensures s.failure.None? ==> s.file.Some? && s.file.value > 0
  {
    match remote.getThumbnail(token, pid, slide.objectId)
    case None => Step(None, Some(ThumbnailFailed(k)))
    case Some(url) =>
      var f := remote.fetchImage(url, ImageName(k));
      Step(FileLeft(f), if GrabError(f).Some? then Some(ImageFailed(k, GrabError(f).value)) else None)
  }

  predicate StepOk(remote: Remote, token: Token, pid: string, slides: seq<Slide>, i: nat)
    requires i < |slides|
  {
    SlideStep(remote, token, pid, slides[i], i + 1).failure.None?
  }

  /** The position of the first slide from i on whose thumbnail or download fails,
      or |slides| when there is none. */
  function Reached(remote: Remote, token: Token, pid: string, slides: seq<Slide>, i: nat): (k: nat)
    requires i <= |slides|
    ensures i <= k <= |slides|
    ensures forall j :: i <= j < k ==> StepOk(remote, token, pid, slides, j)
    ensures k < |slides| ==> !StepOk(remote, token, pid, slides, k)
    decreases |slides| - i
  {
    if i == |slides| || !StepOk(remote, token, pid, slides, i) then i
    else Reached(remote, token, pid, slides, i + 1)
  }

  /** The image files after the first n slides' iterations all succeeded. */
  function ImagesAfter(remote: Remote, token: Token, pid: string, slides: seq<Slide>, images: map<string, nat>, n: nat): (files: map<string, nat>)
    requires n <= |slides|
  {
    if n == 0 then images
    else Put(ImagesAfter(remote, token, pid, slides, images, n - 1), ImageName(n),
             SlideStep(remote, token, pid, slides[n - 1], n).file)
  }

  /** The files and the verdict a run leaves behind. */
  datatype Outcome = Outcome(failure: Option<Failure>, notes: Option<string>, images: map<string, nat>)

  /** The slide loop from position i on, step by step, with the notes written so
      far and the image files as they are: it stops at the first step that fails
      (after that slide's header and whatever file its download left). */
  function RunFrom(remote: Remote, token: Token, pid: string, slides: seq<Slide>, i: nat,
                   notes: string, images: map<string, nat>): (out: Outcome)
    requires DeckHasShapes(slides) && i <= |slides|
    decreases |slides| - i
  {
    if i == |slides| then Outcome(None, Some(notes), images)
    else
      var step := SlideStep(remote, token, pid, slides[i], i + 1);
      var images' := Put(images, ImageName(i + 1), step.file);
      if step.failure.Some? then Outcome(step.failure, Some(notes + Header(i + 1)), images')
      else RunFrom(remote, token, pid, slides, i + 1, notes + Block(i + 1, slides[i]), images')
  }

  /** The effect of the slide loop over a fetched deck, from an empty notes.txt and
      the image files before it. */
  function DeckSpec(remote: Remote, token: Token, pid: string, slides: seq<Slide>, images: map<string, nat>): (out: Outcome)
    requires DeckHasShapes(slides)
  {
    var k := Reached(remote, token, pid, slides, 0);
    if k == |slides| then Outcome(None, Some(NotesFile(slides)), ImagesAfter(remote, token, pid, slides, images, k))
    else
      var step := SlideStep(remote, token, pid, slides[k], k + 1);
      Outcome(step.failure, Some(NotesFile(slides[..k]) + Header(k + 1)),
              Put(ImagesAfter(remote, token, pid, slides, images, k), ImageName(k + 1), step.file))
  }

  /** The whole effect of the exporter after the client is made, from the state of
      notes.txt and the image files before it. */
  function ExportSpec(remote: Remote, token: Token, pid: string, notesCreatable: bool,
                      notes: Option<string>, images: map<string, nat>): (out: Outcome)
    requires remote.getDeck(token, pid).Some? ==> DeckHasShapes(remote.getDeck(token, pid).value)
  {
    if !notesCreatable then Outcome(Some(NotesUncreatable), notes, images)
    else match remote.getDeck(token, pid)
      case None => Outcome(Some(DeckUnavailable), Some(""), images)
      case Some(slides) => DeckSpec(remote, token, pid, slides, images)
  }

  /** Run step by step from any position the loop reaches, the loop ends where
      the closed form says: stopped at the first failing slide, or complete. */
  lemma {:induction false} RunFromMeetsDeckSpec(remote: Remote, token: Token, pid: string, slides: seq<Slide>,
                                               images: map<string, nat>, i: nat)
    requires DeckHasShapes(slides)
    requires i <= Reached(remote, token, pid, slides, 0)
    ensures RunFrom(remote, token, pid, slides, i, NotesFile(slides[..i]), ImagesAfter(remote, token, pid, slides, images, i)) ==
            DeckSpec(remote, token, pid, slides, images)
    decreases |slides| - i
  {
    var k := Reached(remote, token, pid, slides, 0);
    if i == k {
      if i == |slides| {
        assert slides[..i] == slides;
      }
    } else {
      assert StepOk(remote, token, pid, slides, i);
      NotesFileStep(slides, i);
      RunFromMeetsDeckSpec(remote, token, pid, slides, images, i + 1);
    }
  }

  /** The whole loop, from an empty notes.txt, is the closed form. */
  lemma DeckRunIsDeckSpec(remote: Remote, token: Token, pid: string, slides: seq<Slide>, images: map<string, nat>)
    requires DeckHasShapes(slides)
    ensures RunFrom(remote, token, pid, slides, 0, "", images) == DeckSpec(remote, token, pid, slides, images)
  {
    assert slides[..0] == [];
    RunFromMeetsDeckSpec(remote, token, pid, slides, images, 0);
  }

  // ---------------------------------------------------------------------------
  // What a run leaves behind.

  /** After the first n iterations, image j (1-based, j <= n) holds a non-empty file
      and any name that is not one of image1..image<n> is untouched. */
  lemma {:induction false} ImagesAfterWritten(remote: Remote, token: Token, pid: string, slides: seq<Slide>,
                                              images: map<string, nat>, n: nat)
    requires n <= Reached(remote, token, pid, slides, 0)
    ensures forall j :: 1 <= j <= n ==>
      ImageName(j) in ImagesAfter(remote, token, pid, slides, images, n) &&
      ImagesAfter(remote, token, pid, slides, images, n)[ImageName(j)] > 0
    ensures forall name :: (forall j :: 1 <= j <= n ==> name != ImageName(j)) ==>
      SameFile(ImagesAfter(remote, token, pid, slides, images, n), images, name)
  {
    if n > 0 {
      ImagesAfterWritten(remote, token, pid, slides, images, n - 1);
      var before := ImagesAfter(remote, token, pid, slides, images, n - 1);
      assert StepOk(remote, token, pid, slides, n - 1);
      var file := SlideStep(remote, token, pid, slides[n - 1], n).file;
      assert ImagesAfter(remote, token, pid, slides, images, n) == before[ImageName(n) := file.value];
      forall j | 1 <= j < n
        ensures ImageName(j) != ImageName(n)
      {
        ImageNamesDistinct(j, n);
      }
      forall name | forall j :: 1 <= j <= n ==> name != ImageName(j)
        ensures SameFile(ImagesAfter(remote, token, pid, slides, images, n), images, name)
      {
        assert forall j :: 1 <= j <= n - 1 ==> name != ImageName(j);
        assert SameFile(before, images, name);
        assert name != ImageName(n);
      }
    }
  }

  /** Image files of slides after position n are untouched by the first n iterations. */
  lemma {:induction false} LaterImagesUntouched(remote: Remote, token: Token, pid: string, slides: seq<Slide>,
                                                images: map<string, nat>, n: nat, j: nat)
    requires n <= |slides| && n < j
    ensures SameFile(ImagesAfter(remote, token, pid, slides, images, n), images, ImageName(j))
  {
    if n > 0 {
      LaterImagesUntouched(remote, token, pid, slides, images, n - 1, j);
      ImageNamesDistinct(n, j);
    }
  }

  /** A run that gets through every slide leaves no failure, the blocks of all
      slides in notes.txt, a non-empty image<k>.jpg for every k in 1..S, and every
      other file as it was. */
  lemma CompleteExport(remote: Remote, token: Token, pid: string, slides: seq<Slide>, images: map<string, nat>)
    requires DeckHasShapes(slides)
    requires Reached(remote, token, pid, slides, 0) == |slides|
    ensures var out := DeckSpec(remote, token, pid, slides, images);
      out.failure.None? &&
      out.notes == Some(NotesFile(slides)) &&
      (forall k :: 1 <= k <= |slides| ==> ImageName(k) in out.images && out.images[ImageName(k)] > 0) &&
      (forall name :: (forall k :: 1 <= k <= |slides| ==> name != ImageName(k)) ==> SameFile(out.images, images, name))
  {
    ImagesAfterWritten(remote, token, pid, slides, images, |slides|);
  }

  /** A run that stops at the slide at 0-based position k reports that slide:
      its thumbnail or its image download failed. */
  lemma AbortedExportReportsSlide(remote: Remote, token: Token, pid: string, slides: seq<Slide>, images: map<string, nat>)
    requires DeckHasShapes(slides)
    requires Reached(remote, token, pid, slides, 0) < |slides|
    ensures var k := Reached(remote, token, pid, slides, 0);
      var failure := DeckSpec(remote, token, pid, slides, images).failure;
      failure == Some(ThumbnailFailed(k + 1)) ||
      (failure.Some? && failure.value.ImageFailed? && failure.value.slide == k + 1)
  {
    var k := Reached(remote, token, pid, slides, 0);
    assert !StepOk(remote, token, pid, slides, k);
  }

  /** A run that stops at the slide at 0-based position k leaves in notes.txt the
      blocks of slides 1..k and the header of slide k + 1: a prefix of the file a
      complete run writes. */
  lemma AbortedExportNotes(remote: Remote, token: Token, pid: string, slides: seq<Slide>, images: map<string, nat>)
    requires DeckHasShapes(slides)
    requires Reached(remote, token, pid, slides, 0) < |slides|
    ensures var k := Reached(remote, token, pid, slides, 0);
      DeckSpec(remote, token, pid, slides, images).notes == Some(NotesFile(slides[..k]) + Header(k + 1)) &&
      NotesFile(slides[..k]) + Header(k + 1) <= NotesFile(slides)
  {
    AbortedNotesArePrefix(slides, Reached(remote, token, pid, slides, 0));
  }

  /** A run that stops at the slide at 0-based position k leaves non-empty images
      for slides 1..k and no new or changed image file for any slide after k + 1. */
  lemma AbortedExportImages(remote: Remote, token: Token, pid: string, slides: seq<Slide>, images: map<string, nat>)
    requires DeckHasShapes(slides)
    requires Reached(remote, token, pid, slides, 0) < |slides|
    ensures var k := Reached(remote, token, pid, slides, 0);
      var out := DeckSpec(remote, token, pid, slides, images).images;
      (forall j :: 1 <= j <= k ==> ImageName(j) in out && out[ImageName(j)] > 0) &&
      (forall j :: k + 1 < j ==> SameFile(out, images, ImageName(j)))
  {
    var k := Reached(remote, token, pid, slides, 0);
    var before := ImagesAfter(remote, token, pid, slides, images, k);
    var out := DeckSpec(remote, token, pid, slides, images).images;
    assert out == Put(before, ImageName(k + 1), SlideStep(remote, token, pid, slides[k], k + 1).file);
    ImagesAfterWritten(remote, token, pid, slides, images, k);
    forall j | 1 <= j <= k
      ensures ImageName(j) in out && out[ImageName(j)] > 0
    {
      ImageNamesDistinct(j, k + 1);
    }
    forall j | k + 1 < j
      ensures SameFile(out, images, ImageName(j))
    {
      LaterImagesUntouched(remote, token, pid, slides, images, k, j);
      ImageNamesDistinct(k + 1, j);
    }
  }

  /** A run that stops at the slide at 0-based position k leaves that slide's image
      file as it was when the thumbnail or the file creation failed, and otherwise
      holds in it the bytes copied, possibly none (the file is created before the
      download). No file whose name is not an image name changes. */
  lemma AbortedExportFailingImage(remote: Remote, token: Token, pid: string, slides: seq<Slide>, images: map<string, nat>)
    requires DeckHasShapes(slides)
    requires Reached(remote, token, pid, slides, 0) < |slides|
    ensures var k := Reached(remote, token, pid, slides, 0);
      var out := DeckSpec(remote, token, pid, slides, images).images;
      var thumb := remote.getThumbnail(token, pid, slides[k].objectId);
      (thumb.None? ==> SameFile(out, images, ImageName(k + 1))) &&
      (thumb.Some? ==>
         var fetch := remote.fetchImage(thumb.value, ImageName(k + 1));
         (fetch.CannotCreate? ==> SameFile(out, images, ImageName(k + 1))) &&
         (!fetch.CannotCreate? ==> ImageName(k + 1) in out && out[ImageName(k + 1)] == FileLeft(fetch).value &&
                                   out[ImageName(k + 1)] == if fetch.Copied? then fetch.size
                                                            else if fetch.CopyBroken? then fetch.copied else 0))
    ensures var out := DeckSpec(remote, token, pid, slides, images).images;
      forall name :: (forall j :: 1 <= j ==> name != ImageName(j)) ==> SameFile(out, images, name)
  {
    var k := Reached(remote, token, pid, slides, 0);
    var before := ImagesAfter(remote, token, pid, slides, images, k);
    var out := DeckSpec(remote, token, pid, slides, images).images;
    assert out == Put(before, ImageName(k + 1), SlideStep(remote, token, pid, slides[k], k + 1).file);
    LaterImagesUntouched(remote, token, pid, slides, images, k, k + 1);
    ImagesAfterWritten(remote, token, pid, slides, images, k);
    forall name | forall j :: 1 <= j ==> name != ImageName(j)
      ensures SameFile(out, images, name)
    {
      assert name != ImageName(k + 1);
      assert SameFile(before, images, name);
    }
  }

  /** The run succeeds exactly when notes.txt can be created, the deck is fetched,
      and every slide's thumbnail and download succeed. */
  lemma ExportSucceedsIff(remote: Remote, token: Token, pid: string, notesCreatable: bool,
                          notes: Option<string>, images: map<string, nat>)
    requires remote.getDeck(token, pid).Some? ==> DeckHasShapes(remote.getDeck(token, pid).value)
    ensures ExportSpec(remote, token, pid, notesCreatable, notes, images).failure.None? <==>
      notesCreatable && remote.getDeck(token, pid).Some? &&
      forall i :: 0 <= i < |remote.getDeck(token, pid).value| ==> StepOk(remote, token, pid, remote.getDeck(token, pid).value, i)
  {
    if notesCreatable && remote.getDeck(token, pid).Some? {
      var slides := remote.getDeck(token, pid).value;
      var k := Reached(remote, token, pid, slides, 0);
      if k < |slides| {
        assert !StepOk(remote, token, pid, slides, k);
      }
    }
  }

  /** When the deck cannot be fetched, notes.txt exists and is empty and no image
      file was made or changed. */
  lemma DeckFailureLeavesEmptyNotes(remote: Remote, token: Token, pid: string, notes: Option<string>, images: map<string, nat>)
    requires remote.getDeck(token, pid).None?
    ensures ExportSpec(remote, token, pid, true, notes, images) == Outcome(Some(DeckUnavailable), Some(""), images)
  {
  }

  // ---------------------------------------------------------------------------
  // The files, changed in place.

  /** notes.txt (None while it does not exist) and the image files with their sizes. */
  class Workspace {
    var notes: Option<string>
    var images: map<string, nat>

    constructor (notes0: Option<string>, images0: map<string, nat>)
      ensures notes == notes0 && images == images0
    {
      notes := notes0;
      images := images0;
    }

    /** `notes.WriteString(s)`. */
    method WriteNotes(s: string)
      requires notes.Some?
      modifies this`notes
      ensures notes == Some(old(notes).value + s)
    {
      notes := Some(notes.value + s);
    }

    /** One pass of the innermost loop: append the run's content and a newline when
        the text element has a run. */
    method AppendRunLine(te: TextElement)
      requires notes.Some?
      modifies this`notes
      ensures notes == Some(old(notes).value + RunLine(te))
    {
      if te.textRun.Some? {
        WriteNotes(te.textRun.value.content + "\n");
      } else {
        assert notes.value + RunLine(te) == notes.value;
      }
    }

    /** The innermost loop of the exporter: for each text element with a run,
        append the run's content and a newline. */
    method AppendTextNotes(tes: seq<TextElement>)
      requires notes.Some?
      modifies this`notes
      ensures notes == Some(old(notes).value + TextNotes(tes))
    {
      ghost var start := notes.value;
      assert start + TextNotes(tes[..0]) == start by {
        assert tes[..0] == [];
      }
      var m := 0;
      while m < |tes|
        invariant m <= |tes|
        invariant notes == Some(start + TextNotes(tes[..m]))
      {
        AppendRunLine(tes[m]);
        TextNotesStep(tes, m);
        ConcatAssoc(start, TextNotes(tes[..m]), RunLine(tes[m]));
        m := m + 1;
      }
      assert tes[..m] == tes;
    }

    /** One pass of the loop over a notes page: when the element's shape has a text
        body, append the lines of its text runs. */
    method AppendElementNotes(e: PageElement)
      requires notes.Some? && e.shape.Some?
      modifies this`notes
      ensures notes == Some(old(notes).value + ElementNotes(e))
    {
      var text := e.shape.value.text;
      if text.Some? {
        AppendTextNotes(text.value.textElements);
      } else {
        assert notes.value + ElementNotes(e) == notes.value;
      }
    }

    /** The loops of the exporter over one slide's notes page: for each element
        whose shape has a text body, append the lines of its text runs. */
    method AppendSlideNotes(slide: Slide)
      requires notes.Some? && HasShapes(slide)
      modifies this`notes
      ensures notes == Some(old(notes).value + SlideNotes(slide))
    {
      var es := slide.notesElements;
      ghost var start := notes.value;
      assert start + ElementsNotes(es[..0]) == start by {
        assert es[..0] == [];
      }
      var j := 0;
      while j < |es|
        invariant j <= |es|
        invariant notes == Some(start + ElementsNotes(es[..j]))
      {
        AppendElementNotes(es[j]);
        ElementsNotesStep(es, j);
        ConcatAssoc(start, ElementsNotes(es[..j]), ElementNotes(es[j]));
        j := j + 1;
      }
      assert es[..j] == es;
    }

    /** `grabImage`: create the file (empty), GET the URL, copy the body into the
        file; a copy of zero bytes is an error of its own. */
    method GrabImage(fileName: string, fetch: Fetch) returns (err: Option<DownloadError>)
      modifies this`images
      ensures err == GrabError(fetch)
      ensures images == Put(old(images), fileName, FileLeft(fetch))
    {
      if fetch.CannotCreate? {
        return Some(CreateFailed);
      }
      images := images[fileName := 0];
      if fetch.RequestFailed? {
        return Some(GetFailed);
      }
      var size := if fetch.Copied? then fetch.size else fetch.copied;
      images := images[fileName := size];
      if fetch.CopyBroken? {
        return Some(CopyFailed);
      }
      if size == 0 {
        return Some(EmptyDownload);
      }
      return None;
    }

    /** One iteration of the slide loop: append the header of the slide at 1-based
        position i + 1, fetch its thumbnail URL and download it into its image
        file, then append its note text. */
    method ExportSlide(remote: Remote, token: Token, pid: string, slides: seq<Slide>, i: nat)
      returns (failure: Option<Failure>)
      requires i < |slides| && DeckHasShapes(slides) && notes.Some?
      modifies this
      ensures var step := SlideStep(remote, token, pid, slides[i], i + 1);
        failure == step.failure &&
        images == Put(old(images), ImageName(i + 1), step.file) &&
        notes == Some(old(notes).value + if failure.None? then Block(i + 1, slides[i]) else Header(i + 1))
    {
      ghost var before := notes.value;
      WriteNotes(Header(i + 1));
      var name := ImageName(i + 1);
      var thumb := remote.getThumbnail(token, pid, slides[i].objectId);
      if thumb.None? {
        return Some(ThumbnailFailed(i + 1));
      }
      var err := GrabImage(name, remote.fetchImage(thumb.value, name));
      if err.Some? {
        return Some(ImageFailed(i + 1, err.value));
      }
      AppendSlideNotes(slides[i]);
      assert notes.value == before + Block(i + 1, slides[i]);
      failure := None;
    }

    /** The slide loop of the exporter, over a fetched deck, with notes.txt just created. */
    method ExportDeck(remote: Remote, token: Token, pid: string, slides: seq<Slide>) returns (failure: Option<Failure>)
      requires DeckHasShapes(slides) && notes == Some("")
      modifies this
      ensures Outcome(failure, notes, images) == RunFrom(remote, token, pid, slides, 0, "", old(images))
    {
      var i := 0;
      while i < |slides|
        invariant i <= |slides| && notes.Some?
        invariant RunFrom(remote, token, pid, slides, i, notes.value, images) ==
                  RunFrom(remote, token, pid, slides, 0, "", old(images))
      {
        failure := ExportSlide(remote, token, pid, slides, i);
        if failure.Some? {
          return;
        }
        i := i + 1;
      }
      failure := None;
    }

    /** The exporter from the creation of notes.txt to the end of the slide loop. */
    method Export(remote: Remote, token: Token, pid: string, notesCreatable: bool) returns (failure: Option<Failure>)
      requires remote.getDeck(token, pid).Some? ==> DeckHasShapes(remote.getDeck(token, pid).value)
      modifies this
      ensures Outcome(failure, notes, images) == ExportSpec(remote, token, pid, notesCreatable, old(notes), old(images))
    {
      if !notesCreatable {
        return Some(NotesUncreatable);
      }
      notes := Some("");
      var deck := remote.getDeck(token, pid);
      if deck.None? {
        return Some(DeckUnavailable);
      }
      failure := ExportDeck(remote, token, pid, deck.value);
      DeckRunIsDeckSpec(remote, token, pid, deck.value, old(images));
    }
  }

  /** What credentials.json holds: nothing readable, something that is not a client
      configuration, or a configuration. */
  datatype Credentials = Unreadable | Unparsable | ClientSecret(config: Config)

  /** Everything a run depends on besides the files it writes. */
  datatype Environment = Environment(
    credentials: Credentials,
    authCode: Option<string>,
    exchange: (Config, string) -> Option<Token>,
    tokenWritable: bool,
    notesCreatable: bool,
    presentationId: string,
    remote: Remote)

  /** Every deck the service can return has only shapes on its notes pages. */
  ghost predicate DecksHaveShapes(remote: Remote, pid: string) {
    forall t: Token :: remote.getDeck(t, pid).Some? ==> DeckHasShapes(remote.getDeck(t, pid).value)
  }

  /** `main`: read the client configuration, get the client, then export. */
  method Run(env: Environment, store: TokenStore, operator: Operator, ws: Workspace) returns (failure: Option<Failure>)
    requires DecksHaveShapes(env.remote, env.presentationId)
    modifies store, operator, ws
    ensures env.credentials.Unreadable? ==>
      failure == Some(CredentialsUnreadable) && store.file == old(store.file) && operator.asked == old(operator.asked) &&
      ws.notes == old(ws.notes) && ws.images == old(ws.images)
    ensures env.credentials.Unparsable? ==>
      failure == Some(CredentialsInvalid) && store.file == old(store.file) && operator.asked == old(operator.asked) &&
      ws.notes == old(ws.notes) && ws.images == old(ws.images)
    ensures env.credentials.ClientSecret? ==>
      var web := TokenFromWeb(env.credentials.config, env.authCode, env.exchange);
      var client := ClientToken(old(store.file), web, env.tokenWritable);
      store.file == TokenFileAfter(old(store.file), web, env.tokenWritable) &&
      operator.asked == old(operator.asked) + (if old(store.file).Holds? then 0 else 1) &&
      (client.Err? ==> failure == Some(client.failure) && ws.notes == old(ws.notes) && ws.images == old(ws.images)) &&
      (client.Ok? ==>
         Outcome(failure, ws.notes, ws.images) ==
         ExportSpec(env.remote, client.value, env.presentationId, env.notesCreatable, old(ws.notes), old(ws.images)))
  {
    if env.credentials.Unreadable? {
      return Some(CredentialsUnreadable);
    }
    if env.credentials.Unparsable? {
      return Some(CredentialsInvalid);
    }
    var client := store.GetClient(env.credentials.config, operator, env.authCode, env.exchange, env.tokenWritable);
    if client.Err? {
      return Some(client.failure);
    }
    failure := ws.Export(env.remote, client.value, env.presentationId, env.notesCreatable);
  }
}
