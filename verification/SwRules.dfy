/** src/pwa/swRules.js: what the service worker does with a request, and what it may keep. */
module SwRules {
  import opened Paths
  import opened Strings
  import opened Wrappers

  /** A parsed address, without the fragment, which no cache looks at. */
  datatype Url = Url(origin: Text, path: Text, search: Text)

  /** `url` is none when it does not parse; `navigate` is a page load. */
  datatype Request = Request(get: bool, url: Option<Url>, navigate: bool)

  datatype Kind = Basic | Default | Other

  datatype Response = Response(status: nat, kind: Kind, control: Option<Text>, contentType: Option<Text>, body: Text)

  datatype Route = Network | Shell | Asset | Static

  /** Under the API, sign-in or the well-known addresses, or the CA certificate; any ASCII case. */
  predicate Guarded(path: Text) {
    var p := Folded(path);
    Ascii("/api/") <= p || Ascii("/oidc/") <= p || Ascii("/.well-known/") <= p || p == Ascii("/ca.crt")
  }

  predicate NeverCached(path: Text) { Guarded(path) || Folded(path) == Ascii("/sw.js") }

  function RouteFor(request: Request, origin: Text): Route {
    if !request.get || request.url.None? then Network
    else
      var url := request.url.value;
      if url.origin != origin || NeverCached(url.path) then Network
      else if request.navigate then Shell
      else if Ascii("/assets/") <= url.path then Asset
      else if url.path == Ascii("/manifest.webmanifest")
              || Ascii("/icons/") <= url.path || Ascii("/licenses/") <= url.path
      then Static
      else Network
  }

  predicate Here(s: Text, i: nat, part: Text) { i + |part| <= |s| && s[i..i + |part|] == part }

  predicate Includes(s: Text, part: Text) { exists i | 0 <= i <= |s| :: Here(s, i, part) }

  /** Ends at a comma or white space on this side, or with the text. */
  predicate Apart(s: Text, i: int) { !(0 <= i < |s|) || s[i] == 44 || IsSpace(s[i]) }

  predicate Directive(s: Text, name: Text) {
    exists i | 0 <= i <= |s| :: Here(s, i, name) && Apart(s, i - 1) && Apart(s, i + |name|)
  }

  function HeaderOf(header: Option<Text>): Text { if header.None? then [] else Folded(header.value) }

  predicate Cacheable(response: Response) {
    && response.status == 200
    && !response.kind.Other?
    && !Directive(HeaderOf(response.control), Ascii("no-store"))
    && !Directive(HeaderOf(response.control), Ascii("private"))
    && !Includes(HeaderOf(response.contentType), Ascii("json"))
    && !Includes(HeaderOf(response.contentType), Ascii("event-stream"))
  }

  predicate IsShell(response: Response) { Ascii("text/html") <= HeaderOf(response.contentType) }

  /** One of the app's own files, by its path. */
  predicate AppFile(path: Text) {
    || Ascii("/assets/") <= path || Ascii("/icons/") <= path || Ascii("/licenses/") <= path
    || path == Ascii("/manifest.webmanifest")
  }

  /**
   * What the worker answers: the GETs of this origin's pages and of the app's own files, but for what is
   * guarded and its own script; a page load as the shell, and only a page load under the shell's key.
   */
  lemma AnsweredRequests(request: Request, origin: Text)
    ensures RouteFor(request, origin) != Network <==>
      && request.get && request.url.Some? && request.url.value.origin == origin
      && !Guarded(request.url.value.path) && Folded(request.url.value.path) != Ascii("/sw.js")
      && (request.navigate || AppFile(request.url.value.path))
    ensures RouteFor(request, origin) != Network ==>
      && (request.navigate <==> RouteFor(request, origin) == Shell)
      && (!request.navigate && Ascii("/assets/") <= request.url.value.path <==> RouteFor(request, origin) == Asset)
      && (request.url.value.path == SLASH ==> RouteFor(request, origin) == Shell)
  {
  }

  // --- Which responses are marked as not to be kept ---

  predicate Separates(u: CodeUnit) { u == 44 || IsSpace(u) }

  /** The header says the word, in any ASCII case, standing between commas, white space and its ends. */
  ghost predicate Says(header: Option<Text>, word: Text) {
    header.Some? && exists before, part, after ::
      && header.value == before + part + after && Folded(part) == word
      && (before == [] || Separates(before[|before| - 1])) && (after == [] || Separates(after[0]))
  }

  /** The header holds the word somewhere, in any ASCII case. */
  ghost predicate Mentions(header: Option<Text>, word: Text) {
    header.Some? && exists before, part, after :: header.value == before + part + after && Folded(part) == word
  }

  lemma Parted(t: Text, i: nat, n: nat)
    requires i + n <= |t|
    ensures t == t[..i] + t[i..i + n] + t[i + n..] && Folded(t)[i..i + n] == Folded(t[i..i + n])
  {
  }

  lemma SaysIsDirective(header: Option<Text>, word: Text)
    requires word != []
    ensures Says(header, word) <==> Directive(HeaderOf(header), word)
  {
    if header.Some? {
      var t, s := header.value, HeaderOf(header);
      if Says(header, word) {
        var before, part, after :| t == before + part + after && Folded(part) == word
          && (before == [] || Separates(before[|before| - 1])) && (after == [] || Separates(after[0]));
        SaidStands(t, before, part, after, word);
      }
      if Directive(s, word) {
        var i :| 0 <= i <= |s| && Here(s, i, word) && Apart(s, i - 1) && Apart(s, i + |word|);
        DirectiveIsSaid(t, i, word);
      }
    }
  }

  lemma ApartInFolded(t: Text, i: int)
    ensures Apart(Folded(t), i) <==> !(0 <= i < |t|) || Separates(t[i])
  {
  }

  lemma DirectiveIsSaid(t: Text, i: nat, word: Text)
    requires word != [] && Here(Folded(t), i, word) && Apart(Folded(t), i - 1) && Apart(Folded(t), i + |word|)
    ensures Says(Some(t), word)
  {
    var before, part, after := t[..i], t[i..i + |word|], t[i + |word|..];
    Parted(t, i, |word|);
    ApartInFolded(t, i - 1);
    ApartInFolded(t, i + |word|);
    assert before != [] ==> before[|before| - 1] == t[i - 1];
    assert after != [] ==> after[0] == t[i + |word|];
    assert t == before + part + after && Folded(part) == word;
  }

  lemma SaidStands(t: Text, before: Text, part: Text, after: Text, word: Text)
    requires t == before + part + after && Folded(part) == word
    requires (before == [] || Separates(before[|before| - 1])) && (after == [] || Separates(after[0]))
    ensures Directive(Folded(t), word)
  {
    var s, i := Folded(t), |before|;
    assert s[i..i + |word|] == word;
    assert before != [] ==> t[i - 1] == before[|before| - 1];
    assert after != [] ==> t[i + |word|] == after[0];
    assert Here(s, i, word) && Apart(s, i - 1) && Apart(s, i + |word|);
  }

  lemma MentionedIsIncluded(t: Text, before: Text, part: Text, after: Text, word: Text)
    requires t == before + part + after && Folded(part) == word
    ensures Includes(Folded(t), word)
  {
    assert Folded(t)[|before|..|before| + |word|] == word;
    assert Here(Folded(t), |before|, word);
  }

  lemma MentionsIsIncludes(header: Option<Text>, word: Text)
    requires word != []
    ensures Mentions(header, word) <==> Includes(HeaderOf(header), word)
  {
    if header.Some? {
      var t, s := header.value, HeaderOf(header);
      if Mentions(header, word) {
        var before, part, after :| t == before + part + after && Folded(part) == word;
        MentionedIsIncluded(t, before, part, after, word);
      }
      if Includes(s, word) {
        var i :| 0 <= i <= |s| && Here(s, i, word);
        IncludedIsMentioned(t, i, word);
      }
    }
  }

  lemma IncludedIsMentioned(t: Text, i: nat, word: Text)
    requires Here(Folded(t), i, word)
    ensures Mentions(Some(t), word)
  {
    Parted(t, i, |word|);
    assert t == t[..i] + t[i..i + |word|] + t[i + |word|..];
  }

  /**
   * A response may be kept exactly when it is a whole 200 of this origin's that is not marked no-store or
   * private and is no data.
   */
  lemma CacheableExactly(response: Response)
    ensures Cacheable(response) <==>
      && response.status == 200 && (response.kind.Basic? || response.kind.Default?)
      && !Says(response.control, Ascii("no-store")) && !Says(response.control, Ascii("private"))
      && !Mentions(response.contentType, Ascii("json")) && !Mentions(response.contentType, Ascii("event-stream"))
  {
    SaysIsDirective(response.control, Ascii("no-store"));
    SaysIsDirective(response.control, Ascii("private"));
    MentionsIsIncludes(response.contentType, Ascii("json"));
    MentionsIsIncludes(response.contentType, Ascii("event-stream"));
  }
}
