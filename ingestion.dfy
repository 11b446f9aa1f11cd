/**
 * The state `HighlightJsLog` (src/hl-logs.tsx) keeps about its document:
 * the text shown (`data`), whether the loading view replaces it
 * (`isLoading`) and whether the viewer fills the window (`fullScreen`), with
 * the handlers that change them. The document comes from the `text` prop, from
 * one HTTP GET of `url`, or from the messages of a websocket on `url`; the
 * transport itself is outside the model, and each handler receives what the
 * transport produced.
 */
module Ingestion {
  import opened JsString
  import opened LineStore

  /**
   * Second line of the error document. It is written as three literals so that
   * the verifier can evaluate `'\n' !in` on each of them; the text is the same.
   */
  const Guidance1: string := "An error occurred " + "attempting to load " + "the provided log."

  /** Third line of the error document. */
  const Guidance2: string := "Please check the URL " + "and ensure it " + "is reachable."

  /** What the document becomes when a message cannot be formatted (the quotes belong to the text). */
  const FaultDocument: string := "'Something went wrong! Please try again.'"

  /** The document shown when the log cannot be loaded: the error message, two lines of guidance, the URL. */
  function ErrorDocument(message: string, url: string): string {
    message + "\n" + (Guidance1 + "\n" + (Guidance2 + "\n" + url))
  }

  /** How the document is obtained; an empty `url` counts as no URL. */
  datatype Mode = Static | OneShot | Live

  /** The guards of the two loading effects: a GET needs a URL and no websocket, a stream a URL and a websocket. */
  function ModeOf(url: string, websocket: bool): (m: Mode)
    ensures m.OneShot? <==> url != "" && !websocket
    ensures m.Live? <==> url != "" && websocket
    ensures m.Static? <==> url == ""
  {
    if url == "" then Static else if websocket then Live else OneShot
  }

  /** How the GET ended: with a response body (a missing body is ""), or with an error message. */
  datatype FetchOutcome = Loaded(body: string) | Failed(message: string)

  /**
   * What `new sock.w3cwebsocket(url, ...)` did: returned a socket, or threw.
   * A connection that fails after the constructor returns is not reported:
   * the socket's error and close handlers are not installed.
   */
  datatype Construction = Constructed | ConstructorThrew(message: string)

  /** What `formatMessage` did with a message: returned a text, or threw. */
  datatype Formatting = Formatted(text: string) | Faulted

  /** The document after the GET: the trimmed body, or the error document. */
  function Fetched(outcome: FetchOutcome, url: string): string {
    match outcome
    case Loaded(body) => Trim(body)
    case Failed(message) => ErrorDocument(message, url)
  }

  /** The document after a formatted message `m`: one more line when `m` is non-empty, else unchanged. */
  function Appended(data: string, m: string): string {
    if m != "" then data + "\n" + m else data
  }

  /** What the component shows. */
  datatype Screen = Loading | Log(data: string)

  class HighlightJsLog {
    const url: string
    const websocket: bool
    var data: string
    var isLoading: bool
    var fullScreen: bool
    /** Whether a websocket has been opened and its message handler installed. */
    var listening: bool

    /** Mounting: the document is the `text` prop; nothing is loading and the viewer is not full screen. */
    constructor (text: string, url: string, websocket: bool)
      ensures this.url == url && this.websocket == websocket
      ensures data == text && !isLoading && !fullScreen && !listening
    {
      this.url := url;
      this.websocket := websocket;
      data := text;
      isLoading := false;
      fullScreen := false;
      listening := false;
    }

    /** The loading view while loading, else the document. */
    function View(): (s: Screen)
      reads this
      ensures s.Loading? <==> isLoading
      ensures s.Log? ==> s.data == data
    {
      if isLoading then Loading else Log(data)
    }

    /** The `text` prop changed: the document is replaced by it. */
    method TextChanged(text: string)
      modifies this`data
      ensures data == text
    {
      data := text;
    }

    /** The GET effect at mount: starts loading only in one-shot mode, otherwise does nothing. */
    method StartFetch() returns (started: bool)
      modifies this`isLoading
      ensures started <==> ModeOf(url, websocket).OneShot?
      ensures started ==> isLoading
      ensures !started ==> isLoading == old(isLoading)
    {
      if url == "" || websocket {
        return false;
      }
      isLoading := true;
      return true;
    }

    /** The GET settled: the document is the trimmed body or the error document, and loading ends either way. */
    method FinishFetch(outcome: FetchOutcome)
      requires ModeOf(url, websocket).OneShot?
      modifies this`data, this`isLoading
      ensures data == Fetched(outcome, url)
      ensures !isLoading
    {
      match outcome {
        case Loaded(body) =>
          data := Trim(body);
        case Failed(message) =>
          data := ErrorDocument(message, url);
      }
      isLoading := false;
    }

    /**
     * The websocket effect at mount: only in live mode, starts loading and
     * constructs the socket; a socket constructor that throws ends loading
     * and shows the error document. Once constructed, only a message ends
     * loading.
     */
    method OpenStream(construction: Construction) returns (attached: bool)
      modifies this`data, this`isLoading, this`listening
      ensures attached <==> ModeOf(url, websocket).Live? && construction.Constructed?
      ensures listening == (old(listening) || attached)
      ensures !ModeOf(url, websocket).Live? ==> data == old(data) && isLoading == old(isLoading)
      ensures ModeOf(url, websocket).Live? ==>
        match construction
        case Constructed => isLoading && data == old(data)
        case ConstructorThrew(message) => !isLoading && data == ErrorDocument(message, url)
    {
      if url == "" || !websocket {
        return false;
      }
      isLoading := true;
      match construction {
        case Constructed =>
          listening := true;
          return true;
        case ConstructorThrew(message) =>
          isLoading := false;
          data := ErrorDocument(message, url);
          return false;
      }
    }

    /**
     * A websocket message arrived: a formatted text is appended as a new line
     * (nothing when it is empty) and loading ends; when formatting throws,
     * the whole document is replaced by the fault text and loading is left
     * as it was.
     */
    method OnMessage(formatting: Formatting)
      requires listening
      modifies this`data, this`isLoading
      ensures formatting.Formatted? ==> data == Appended(old(data), formatting.text) && !isLoading
      ensures formatting.Faulted? ==> data == FaultDocument && isLoading == old(isLoading)
    {
      match formatting {
        case Formatted(m) =>
          data := data + (if m != "" then "\n" + m else "");
          isLoading := false;
        case Faulted =>
          data := FaultDocument;
      }
    }

    /** The full-screen button flips full-screen mode. */
    method ToggleFullScreen()
      modifies this`fullScreen
      ensures fullScreen == !old(fullScreen)
    {
      fullScreen := !fullScreen;
    }

    /** A key press: Escape leaves full-screen mode; any other key changes nothing. */
    method KeyDown(code: string)
      modifies this`fullScreen
      ensures code == "Escape" ==> !fullScreen
      ensures code != "Escape" ==> fullScreen == old(fullScreen)
    {
      if code == "Escape" {
        fullScreen := false;
      }
    }
  }

  /**
   * Lines of a text, two more texts and a last text joined by line breaks:
   * the lines of each part in turn, and a last text without breaks is the
   * last line.
   */
  lemma {:induction false} FourPartLines(a: string, g1: string, g2: string, b: string)
    ensures Split(a + "\n" + (g1 + "\n" + (g2 + "\n" + b))) == Split(a) + Split(g1) + Split(g2) + Split(b)
    ensures '\n' !in b ==> Split(a + "\n" + (g1 + "\n" + (g2 + "\n" + b)))[|Split(a + "\n" + (g1 + "\n" + (g2 + "\n" + b)))| - 1] == b
  {
    var rest := g2 + "\n" + b;
    SplitAppend(a, g1 + "\n" + rest);
    SplitAppend(g1, rest);
    SplitAppend(g2, b);
    Regroup(Split(a), Split(g1), Split(g2), Split(b));
    if '\n' !in b {
      SplitSingle(b);
    }
  }

  /** The first guidance text is a single line. */
  lemma Guidance1Unbroken()
    ensures '\n' !in Guidance1
  {
    assert '\n' !in "An error occurred ";
    assert '\n' !in "attempting to load ";
    assert '\n' !in "the provided log.";
  }

  /** The second guidance text is a single line. */
  lemma Guidance2Unbroken()
    ensures '\n' !in Guidance2
  {
    assert '\n' !in "Please check the URL ";
    assert '\n' !in "and ensure it ";
    assert '\n' !in "is reachable.";
  }

  /** With break-free middle texts, each of them is exactly one line between the first and last texts' lines. */
  lemma MiddleLines(a: string, g1: string, g2: string, b: string)
    requires '\n' !in g1 && '\n' !in g2
    ensures Split(a + "\n" + (g1 + "\n" + (g2 + "\n" + b))) == Split(a) + [g1, g2] + Split(b)
  {
    FourPartLines(a, g1, g2, b);
    SplitSingle(g1);
    SplitSingle(g2);
  }

  /** Concatenation regrouped from the right to the left. */
  lemma Regroup(p: seq<string>, q: seq<string>, r: seq<string>, t: seq<string>)
    ensures p + (q + (r + t)) == p + q + r + t
  {
    assert q + (r + t) == q + r + t;
  }

  /**
   * The error document's lines are the message's lines, then the two
   * guidance lines, then the URL's lines; a URL without line breaks is the
   * last line.
   */
  lemma ErrorDocumentLines(message: string, url: string)
    ensures Split(ErrorDocument(message, url)) == Split(message) + [Guidance1, Guidance2] + Split(url)
    ensures '\n' !in url ==> Split(ErrorDocument(message, url))[|Split(ErrorDocument(message, url))| - 1] == url
  {
    Guidance1Unbroken();
    Guidance2Unbroken();
    MiddleLines(message, Guidance1, Guidance2, url);
    if '\n' !in url {
      SplitSingle(url);
    }
  }

  /**
   * A message appends its lines after the existing ones, which keep their
   * texts and numbers; an empty message leaves the lines as they were.
   */
  lemma AppendedLines(data: string, m: string)
    ensures m != "" ==> Split(Appended(data, m)) == Split(data) + Split(m)
    ensures m == "" ==> Appended(data, m) == data
    ensures Lines(data) <= Lines(Appended(data, m))
  {
    if m != "" {
      SplitAppend(data, m);
      var a, b := Lines(data), Lines(Appended(data, m));
      assert |a| <= |b| by {
        SplitCount(data);
        SplitCount(Appended(data, m));
      }
      forall i | 0 <= i < |a|
        ensures a[i] == b[i]
      {
        assert Split(Appended(data, m))[i] == Split(data)[i];
      }
    }
  }

  /** Two non-empty messages in a row append two lines, in arrival order. */
  lemma TwoMessages(data: string, m1: string, m2: string)
    requires m1 != "" && m2 != ""
    ensures Appended(Appended(data, m1), m2) == data + "\n" + m1 + "\n" + m2
    ensures Split(Appended(Appended(data, m1), m2)) == Split(data) + Split(m1) + Split(m2)
  {
    AppendedLines(data, m1);
    AppendedLines(Appended(data, m1), m2);
  }
}
