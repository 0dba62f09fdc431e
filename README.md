# Slides notes and thumbnail exporter, modelled in Dafny

The exporter is a single Go program, `slides_api.go`. It authorizes against the
Google Slides API and fetches one presentation. Then, for every slide in deck
order, it:

- writes the header `Slide k:` to `notes.txt`;
- downloads the slide's thumbnail to `image<k>.jpg`;
- appends the text of every text run on the slide's speaker-notes page, each run
  followed by a newline.

Any failure is fatal and leaves the files as they are at that moment.

The model covers:

- **Wrappers.dfy**: `Option` and `Result`, and one `Failure` per fatal error
  (`log.Fatalf`) of the program.
- **Decimal.dfy**: the `%d` rendering of a natural number, its round trip back to
  the number, and its injectivity.
- **Notes.dfy**: the deck as values (slides, notes-page elements, shapes, text
  elements, text runs).
  - The flattening of a notes page into text, written the way the loops append:
    from the back, element by element.
  - An independent description of that text: the list of text runs in reading
    order, one per line.
  - The notes file: for each slide, its header followed by its notes.
  - The image file names.
  - Lemmas relating all of these.
- **Auth.dfy**: the token cache `token.json` as a `TokenStore` object, the
  operator at the console as an `Operator` object that counts the prompts, and
  `getClient`'s decision. It uses the cached token when it loads; otherwise it
  prompts for a code, runs the web flow and caches the token.
- **Export.dfy**: `notes.txt` and the image files as a `Workspace` object.
  - `Workspace` has a method per loop of `main`: the loops over text elements,
    over notes-page elements and over slides.
  - `grabImage` is also a `Workspace` method.
  - `main` itself is `Run`.
  - The slide loop is specified twice:
    - step by step (`RunFrom`);
    - in closed form (`DeckSpec`: stop at the first slide whose thumbnail or
      download fails), with a lemma proving the two agree.

The remote side comes in as values:

- the deck, by token and presentation id;
- a thumbnail URL, by token, presentation id and page id;
- the outcome of each download (`Fetch`).

The credentials file, the authorization code, the token exchange and whether
files can be created are likewise inputs of the run.

Each text run is written as its content followed by `"\n"` (slides_api.go:162).
Runs `"Hello, "` and `"world"` therefore give `"Hello, \nworld\n"`, not one joined
line; `Notes.TwoRunsTwoLines` states this. The model follows the code.

## Model

| member | source | states |
|---|---|---|
| Decimal.NatToString | slides_api.go:142 | the `%d` text of a number is a non-empty string of decimal digits with no leading zero unless it is `0` |
| Decimal.DecimalRoundTrip | slides_api.go:142 | reading back the digits `%d` prints gives the number printed |
| Decimal.NatToStringInjective | slides_api.go:151 | different numbers print differently |
| Notes.TextNotesAreRunLines | slides_api.go:159-164 | the text the loop over text elements appends is the run contents, in order, each followed by a newline |
| Notes.ElementNotesAreRunLines | slides_api.go:157-165 | an element adds nothing when its shape has no text, else the lines of its runs |
| Notes.ElementsNotesAreRunLines | slides_api.go:156-166 | the loop over a page's elements appends exactly the lines of all runs in element order, then text-element order |
| Notes.SlideNotesAreRunLines | slides_api.go:156-166 | a slide's note text is its list of runs, each on its own line, and nothing else |
| Notes.ElementsNotesAppend | slides_api.go:156-166 | the note text of two runs of elements one after another is the two texts concatenated |
| Notes.TextNotesAppend | slides_api.go:159-164 | the same for runs of text elements |
| Notes.TextlessElementsAreSkipped | slides_api.go:157-158 | an element whose shape has no text contributes nothing |
| Notes.RunlessTextElementsAreSkipped | slides_api.go:160-161 | a text element without a run contributes nothing |
| Notes.NotesFileStep | slides_api.go:140-166 | each slide adds its block (header, then notes) at the end of notes.txt |
| Notes.NotesFilePrefix | slides_api.go:140-166 | the notes of the first k slides are a prefix of the complete notes file |
| Notes.AbortedNotesArePrefix | slides_api.go:140-154 | the blocks of slides 1..k followed by header k+1 are a prefix of the complete file |
| Notes.HeaderAt | slides_api.go:140-142 | the header `Slide i+1:` sits in notes.txt where block i starts |
| Notes.BlocksAdjacent | slides_api.go:140-166 | block i+1 starts right after header i+1 and slide i+1's notes; the last block ends at the end of the file |
| Notes.HeadersDistinct | slides_api.go:142 | headers of different slides differ |
| Notes.ImageNamesDistinct | slides_api.go:151 | image file names of different slides differ |
| Notes.NotesWithoutRunsAreHeaders | slides_api.go:140-166 | with no text run anywhere, notes.txt holds exactly the headers `Slide 1:` .. `Slide S:` in order |
| Notes.ThreeSlideScenario | slides_api.go:140-166 | a deck with notes "Note A", "Note B" and none gives `Slide 1:\nNote A\nSlide 2:\nNote B\nSlide 3:\n` |
| Notes.TwoRunsTwoLines | slides_api.go:159-163 | two runs are written on two lines and a run-less text element between them adds nothing |
| Auth.CacheRoundTrip | slides_api.go:51-71 | a token saved to token.json, whatever the file held before, is the token loaded from it |
| Auth.UnusableCacheLoadsNothing | slides_api.go:51-60 | a missing token.json and one that does not decode both load no token; for every web-flow result and writability, either gives the client a missing file gives, and ends holding the web token exactly when the flow succeeds and the file is writable |
| Auth.WebFlowFailuresAreFatal | slides_api.go:33-48 | without a usable cache, an unread code fails the run as such, a code the exchange rejects fails it as such, and a failed flow leaves token.json unchanged |
| Auth.CachedTokenIsUsed | slides_api.go:24-29 | a cached token is used unchanged and token.json is left alone |
| Auth.WebTokenIsCached | slides_api.go:24-28 | without a usable cache the client gets the web token exactly when the flow succeeds and the file is writable, and then the file holds it |
| Auth.ObtainedTokenIsReloaded | slides_api.go:24-28 | whatever token the client gets is what the next load of token.json returns |
| Auth.TokenStore.SaveToken | slides_api.go:63-71 | the file is overwritten with the token exactly when it can be opened for writing; otherwise a fatal error and no change |
| Auth.Operator.Prompt | slides_api.go:35-41 | one prompt is counted and yields the code typed, or none |
| Auth.TokenStore.GetClient | slides_api.go:19-30 | the operator's prompt count grows by one if and only if the cache does not load, otherwise it is unchanged; a loaded token is used unchanged and the file untouched; otherwise the web token is used and saved |
| Auth.TwoRuns | slides_api.go:19-30 | after a successful first run, a second run gets the same token without prompting the operator again, and token.json holds that token |
| Export.GrabError | slides_api.go:73-95 | a download succeeds exactly when the copy finishes with more than zero bytes; zero bytes and a broken copy are errors |
| Export.FileLeft | slides_api.go:74-89 | an image file is left behind exactly when it could be created; after a success it holds the downloaded, non-empty size |
| Export.Workspace.GrabImage | slides_api.go:73-95 | returns the download's error and leaves the created file with the bytes copied, touching no other file |
| Export.SlideStep | slides_api.go:145-154 | the image part of a slide's iteration succeeds only with a non-empty image file |
| Export.Reached | slides_api.go:140-154 | the position where the loop stops: every earlier slide's step succeeds, and the one there fails |
| Export.RunFromMeetsDeckSpec | slides_api.go:140-167 | run step by step from any position the loop reaches, the loop ends as the closed form says |
| Export.DeckRunIsDeckSpec | slides_api.go:140-167 | the step-by-step loop over a whole deck equals the closed form |
| Export.ImagesAfterWritten | slides_api.go:140-154 | after k successful iterations image1..image<k> exist and are non-empty, and every other file is as before |
| Export.LaterImagesUntouched | slides_api.go:140-154 | iterations up to slide k leave the image files of later slides untouched |
| Export.CompleteExport | slides_api.go:140-167 | a complete run reports no failure, writes all blocks to notes.txt and a non-empty image for every slide, and changes no other file |
| Export.AbortedExportReportsSlide | slides_api.go:145-154 | a run that stops reports the first failing slide's thumbnail or download |
| Export.AbortedExportNotes | slides_api.go:140-154 | a run stopped at slide k+1 leaves the blocks of slides 1..k and header k+1, a prefix of the complete notes |
| Export.AbortedExportImages | slides_api.go:145-154 | a run stopped at slide k+1 leaves non-empty images 1..k and no new or changed image for a later slide |
| Export.AbortedExportFailingImage | slides_api.go:74-89 | on abort, the failing slide's image file is unchanged when its thumbnail or its creation failed, and otherwise holds the bytes copied, possibly none; no non-image file changes |
| Export.ExportSucceedsIff | slides_api.go:128-167 | the export succeeds if and only if notes.txt is created, the deck is fetched and every thumbnail and download succeeds |
| Export.DeckFailureLeavesEmptyNotes | slides_api.go:128-137 | when the deck cannot be fetched, notes.txt exists and is empty and no image file was made |
| Export.Workspace.WriteNotes | slides_api.go:142 | a write appends the string to notes.txt |
| Export.Workspace.AppendRunLine | slides_api.go:160-163 | one text element appends its run's line, or nothing |
| Export.Workspace.AppendTextNotes | slides_api.go:159-164 | the loop over text elements appends exactly their note text |
| Export.Workspace.AppendElementNotes | slides_api.go:157-165 | one notes-page element appends exactly its note text |
| Export.Workspace.AppendSlideNotes | slides_api.go:156-166 | the loops over a notes page append exactly the slide's note text |
| Export.Workspace.ExportSlide | slides_api.go:141-166 | one iteration appends the header; on success it writes the image and appends the slide's notes, on failure it appends nothing more |
| Export.Workspace.ExportDeck | slides_api.go:140-167 | the slide loop leaves the failure, notes.txt and image files of the step-by-step specification |
| Export.Workspace.Export | slides_api.go:128-167 | creating notes.txt, fetching the deck and running the loop leaves what the export specification says |
| Export.Run | slides_api.go:97-167 | an unreadable or unparsable credentials file fails with no change; otherwise the token, token.json and the prompts follow `getClient`; with a client, the files follow the export specification |

## Left out

- OAuth internals are inputs of the run: building the client configuration, the authorization URL, the token exchange and token refresh. Token fields are carried but never interpreted.
- JSON encoding and decoding of the token and the 0600 mode of token.json. The file is a slot that is absent, undecodable or holds a token. The ignored error of `json.NewEncoder(f).Encode` (slides_api.go:70) is not modelled; a successful open counts as a save.
- Console output: the text of the prompt, the progress lines and the echo of each header on standard output (slides_api.go:141). A prompt is only counted, and the code it reads (or its absence) is an input of the run.
- The Slides service construction `slides.New` (slides_api.go:115-118). It can only fail for a missing client, which the model never has.
- The HTTP client, its `CheckRedirect` hook and the `GET` and copy of `grabImage`. Only their outcome enters, as a `Fetch`: no file, request failed, copy broken after some bytes, or copied some bytes.
- Closing files and response bodies, and process exit: `log.Fatalf` becomes a `Failure` that ends the run.
- The errors returned by `notes.WriteString` are ignored by the program and cannot occur in the model.
- Export.Workspace.AppendSlideNotes, Export.Workspace.ExportDeck, Export.Workspace.Export and Export.Run require every notes-page element to have a shape. The program dereferences the shape without a check and would crash; that crash is not modelled.
- `Notes.Slide` holds its notes-page elements directly. The program reaches them through `page.SlideProperties.NotesPage` (slides_api.go:156) without checking either field and would crash on a missing one; that crash is not modelled.
- Go's `int` is 64 bits wide; slide positions and byte counts are unbounded naturals here, since no deck comes near the bound.
- The presentation id is a parameter instead of the constant at slides_api.go:101.
