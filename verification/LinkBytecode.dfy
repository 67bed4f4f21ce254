/** Linking the shared library into a compiled artifact: every 20-byte placeholder window of the hex
    text is overwritten, in place, with the library address. */
module LinkBytecode {
  import opened Wrappers

  datatype Position = Position(start: nat, length: nat)
  datatype Library = Library(name: string, positions: seq<Position>)
  datatype Artifact = Artifact(code: string, references: seq<seq<Library>>)
  datatype LinkError = UnsupportedLibrary | UnsupportedLength | NotFullyLinked

  const WINDOW: nat := 40

  /** `text.slice(0, n)` and `text.slice(n)`, which clamp. */
  function Before(text: string, n: nat): string {
    if n <= |text| then text[..n] else text
  }

  function From(text: string, n: nat): string {
    if n <= |text| then text[n..] else ""
  }

  function LowerChar(c: char): char {
    if 'A' <= c <= 'Z' then (c as int + 32) as char else c
  }

  function Lower(text: string): (r: string)
    ensures |r| == |text|
  {
    seq(|text|, i requires 0 <= i < |text| => LowerChar(text[i]))
  }

  predicate HexDigit(c: char) {
    '0' <= c <= '9' || 'a' <= c <= 'f' || 'A' <= c <= 'F'
  }

  predicate Hex(text: string) {
    forall i :: 0 <= i < |text| ==> HexDigit(text[i])
  }

  function Min(a: nat, b: nat): nat {
    if a <= b then a else b
  }

  /** `text.slice(0, start) + address + text.slice(start + 40)`, character by character. */
  function Splice(code: string, start: nat, address: string): string {
    var head := Min(start, |code|);
    var skip := Min(start + WINDOW, |code|);
    seq(head + |address| + |code| - skip, i requires 0 <= i < head + |address| + |code| - skip =>
      if i < head then code[i]
      else if i < head + |address| then address[i - head]
      else code[skip + i - head - |address|])
  }

  lemma SpliceIsConcatenation(code: string, start: nat, address: string)
    ensures Splice(code, start, address) == Before(code, start) + address + From(code, start + WINDOW)
  {
  }

  /** The windows, in characters, in the order the loops visit them. */
  function PositionWindows(positions: seq<Position>): seq<nat> {
    seq(|positions|, i requires 0 <= i < |positions| => positions[i].start * 2)
  }

  function FileWindows(file: seq<Library>, n: nat): seq<nat>
    requires n <= |file|
  {
    if n == 0 then [] else FileWindows(file, n - 1) + PositionWindows(file[n - 1].positions)
  }

  function WindowsUpTo(references: seq<seq<Library>>, n: nat): seq<nat>
    requires n <= |references|
  {
    if n == 0 then []
    else WindowsUpTo(references, n - 1) + FileWindows(references[n - 1], |references[n - 1]|)
  }

  function Windows(references: seq<seq<Library>>): seq<nat> {
    WindowsUpTo(references, |references|)
  }

  /** Overwrite the first `n` windows one after the other. */
  function PatchUpTo(code: string, windows: seq<nat>, n: nat, address: string): string
    requires n <= |windows|
  {
    if n == 0 then code else Splice(PatchUpTo(code, windows, n - 1, address), windows[n - 1], address)
  }

  function Patch(code: string, windows: seq<nat>, address: string): string {
    PatchUpTo(code, windows, |windows|, address)
  }

  predicate Lengths20(positions: seq<Position>) {
    forall i :: 0 <= i < |positions| ==> positions[i].length == 20
  }

  predicate SupportedLibrary(library: Library) {
    library.name == "NAVLib" && Lengths20(library.positions)
  }

  predicate SupportedFile(file: seq<Library>) {
    forall i :: 0 <= i < |file| ==> SupportedLibrary(file[i])
  }

  predicate Supported(references: seq<seq<Library>>) {
    forall i :: 0 <= i < |references| ==> SupportedFile(references[i])
  }

  /** What linking must return: an error for an unsupported reference, otherwise the patched text
      when something was patched and nothing but hex digits remains. */
  ghost predicate IsLinked(artifact: Artifact, library: string, r: Result<string, LinkError>) {
    var windows := Windows(artifact.references);
    var text := Patch(From(artifact.code, 2), windows, Lower(From(library, 2)));
    if !Supported(artifact.references) then r == Err(UnsupportedLibrary) || r == Err(UnsupportedLength)
    else if windows == [] || text == "" || !Hex(text) then r == Err(NotFullyLinked)
    else r == Ok("0x" + text)
  }

  method IsHex(text: string) returns (r: bool)
    ensures r == Hex(text)
  {
    for i := 0 to |text|
      invariant forall j :: 0 <= j < i ==> HexDigit(text[j])
    {
      if !HexDigit(text[i]) { return false; }
    }
    return true;
  }

  lemma {:induction false} PatchPrefix(code: string, a: seq<nat>, b: seq<nat>, n: nat, address: string)
    requires n <= |a| && a <= b
    ensures PatchUpTo(code, a, n, address) == PatchUpTo(code, b, n, address)
  {
    if n > 0 {
      PatchPrefix(code, a, b, n - 1, address);
    }
  }

  lemma {:induction false} PatchFrom(code: string, a: seq<nat>, b: seq<nat>, n: nat, address: string)
    requires n <= |b|
    ensures PatchUpTo(code, a + b, |a| + n, address) == PatchUpTo(Patch(code, a, address), b, n, address)
  {
    if n == 0 {
      PatchPrefix(code, a, a + b, |a|, address);
    } else {
      PatchFrom(code, a, b, n - 1, address);
      assert (a + b)[|a| + n - 1] == b[n - 1];
    }
  }

  /** Patching two lists of windows is patching their concatenation. */
  lemma PatchAppend(code: string, a: seq<nat>, b: seq<nat>, address: string)
    ensures Patch(code, a + b, address) == Patch(Patch(code, a, address), b, address)
  {
    PatchFrom(code, a, b, |b|, address);
  }

  /** The loop over the positions of one library. */
  method LinkPositions(code: string, positions: seq<Position>, address: string) returns (r: Result<string, LinkError>)
    ensures r.Ok? <==> Lengths20(positions)
    ensures r.Ok? ==> r.value == Patch(code, PositionWindows(positions), address)
    ensures r.Err? ==> r.error == UnsupportedLength
  {
    ghost var windows := PositionWindows(positions);
    var text := code;
    for p := 0 to |positions|
      invariant text == PatchUpTo(code, windows, p, address)
      invariant forall i :: 0 <= i < p ==> positions[i].length == 20
    {
      if positions[p].length != 20 { return Err(UnsupportedLength); }
      var start := positions[p].start * 2;
      SpliceIsConcatenation(text, start, address);
      text := Before(text, start) + address + From(text, start + WINDOW);
    }
    r := Ok(text);
  }

  /** The loop over the libraries of one file; also counts the replacements. */
  method LinkFile(code: string, file: seq<Library>, address: string) returns (r: Result<(string, nat), LinkError>)
    ensures r.Ok? <==> SupportedFile(file)
    ensures r.Ok? ==> r.value == (Patch(code, FileWindows(file, |file|), address), |FileWindows(file, |file|)|)
    ensures r.Err? ==> r.error != NotFullyLinked
  {
    var text := code;
    var replacements := 0;
    for l := 0 to |file|
      invariant text == Patch(code, FileWindows(file, l), address) && replacements == |FileWindows(file, l)|
      invariant forall i :: 0 <= i < l ==> SupportedLibrary(file[i])
    {
      if file[l].name != "NAVLib" { return Err(UnsupportedLibrary); }
      var linked := LinkPositions(text, file[l].positions, address);
      if linked.Err? { return Err(linked.error); }
      PatchAppend(code, FileWindows(file, l), PositionWindows(file[l].positions), address);
      text := linked.value;
      replacements := replacements + |file[l].positions|;
    }
    r := Ok((text, replacements));
  }

  method LinkVaultArtifactBytecode(artifact: Artifact, library: string) returns (r: Result<string, LinkError>)
    ensures IsLinked(artifact, library, r)
  {
    var original := From(artifact.code, 2);
    var address := Lower(From(library, 2));
    var code := original;
    var references := artifact.references;
    var replacements := 0;
    for f := 0 to |references|
      invariant code == Patch(original, WindowsUpTo(references, f), address)
      invariant replacements == |WindowsUpTo(references, f)|
      invariant forall i :: 0 <= i < f ==> SupportedFile(references[i])
    {
      var linked := LinkFile(code, references[f], address);
      if linked.Err? { return Err(linked.error); }
      PatchAppend(original, WindowsUpTo(references, f), FileWindows(references[f], |references[f]|), address);
      code := linked.value.0;
      replacements := replacements + linked.value.1;
    }
    var hex := IsHex(code);
    if replacements == 0 || code == "" || !hex { return Err(NotFullyLinked); }
    r := Ok("0x" + code);
  }

  // ---------- What patching means ----------

  ghost predicate InBounds(code: string, windows: seq<nat>) {
    forall k :: 0 <= k < |windows| ==> windows[k] + WINDOW <= |code|
  }

  ghost predicate Apart(windows: seq<nat>) {
    forall j, k :: 0 <= j < k < |windows| ==> windows[j] + WINDOW <= windows[k] || windows[k] + WINDOW <= windows[j]
  }

  ghost predicate Inside(i: nat, windows: seq<nat>) {
    exists w :: w in windows && w <= i < w + WINDOW
  }

  /** The address inside the windows, the old text elsewhere. */
  ghost predicate Overlaid(code: string, text: string, windows: seq<nat>, address: string) {
    && |address| == WINDOW
    && |text| == |code|
    && (forall w, i: nat :: w in windows && w <= i < w + WINDOW && i < |text| ==> text[i] == address[i - w])
    && (forall i: nat :: i < |text| && !Inside(i, windows) ==> text[i] == code[i])
  }

  /** `text` is `code` with one window overwritten. */
  ghost predicate Spliced(code: string, text: string, start: nat, address: string) {
    && |address| == WINDOW && start + WINDOW <= |code|
    && |text| == |code|
    && (forall i: nat :: start <= i < start + WINDOW ==> text[i] == address[i - start])
    && (forall i: nat :: i < |code| && !(start <= i < start + WINDOW) ==> text[i] == code[i])
  }

  lemma SpliceAt(code: string, start: nat, address: string)
    requires start + WINDOW <= |code| && |address| == WINDOW
    ensures Spliced(code, Splice(code, start, address), start, address)
  {
  }

  lemma OverlayMore(code: string, text: string, r: string, front: seq<nat>, last: nat, address: string)
    requires Overlaid(code, text, front, address) && Spliced(text, r, last, address)
    requires forall w :: w in front ==> w + WINDOW <= last || last + WINDOW <= w
    ensures Overlaid(code, r, front + [last], address)
  {
    var windows := front + [last];
    forall i: nat | i < |r| && !Inside(i, windows) ensures r[i] == code[i] {
      assert last in windows;
      assert !Inside(i, front) by {
        assert forall w :: w in front ==> w in windows;
      }
    }
  }

  lemma {:induction false} PatchUpToOverlays(code: string, windows: seq<nat>, n: nat, address: string)
    requires InBounds(code, windows) && Apart(windows) && |address| == WINDOW && n <= |windows|
    ensures Overlaid(code, PatchUpTo(code, windows, n, address), windows[..n], address)
  {
    if n > 0 {
      PatchUpToOverlays(code, windows, n - 1, address);
      var text := PatchUpTo(code, windows, n - 1, address);
      SpliceAt(text, windows[n - 1], address);
      OverlayMore(code, text, Splice(text, windows[n - 1], address), windows[..n - 1], windows[n - 1], address);
      assert windows[..n - 1] + [windows[n - 1]] == windows[..n];
    }
  }

  /** Patching is overlaying. */
  lemma PatchOverlays(code: string, windows: seq<nat>, address: string)
    requires InBounds(code, windows) && Apart(windows) && |address| == WINDOW
    ensures Overlaid(code, Patch(code, windows, address), windows, address)
  {
    PatchUpToOverlays(code, windows, |windows|, address);
    assert windows[..|windows|] == windows;
  }

  /** Overlays of the same windows agree, in whatever order the windows come. */
  lemma OverlayUnique(code: string, p: string, q: string, a: seq<nat>, b: seq<nat>, address: string)
    requires Overlaid(code, p, a, address) && Overlaid(code, q, b, address)
    requires forall w :: w in a <==> w in b
    ensures p == q
  {
    forall i: nat | i < |p| ensures p[i] == q[i] {
      if Inside(i, a) {
        var w :| w in a && w <= i < w + WINDOW;
        assert w in b;
      } else {
        assert !Inside(i, b);
      }
    }
  }

  /** The order in which files, libraries and positions are visited does not matter. */
  lemma PatchOrderIrrelevant(code: string, a: seq<nat>, b: seq<nat>, address: string)
    requires InBounds(code, a) && Apart(a) && InBounds(code, b) && Apart(b) && |address| == WINDOW
    requires forall w :: w in a <==> w in b
    ensures Patch(code, a, address) == Patch(code, b, address)
  {
    PatchOverlays(code, a, address);
    PatchOverlays(code, b, address);
    OverlayUnique(code, Patch(code, a, address), Patch(code, b, address), a, b, address);
  }

  /** Patching twice is patching once. */
  lemma PatchTwice(code: string, windows: seq<nat>, address: string)
    requires InBounds(code, windows) && Apart(windows) && |address| == WINDOW
    ensures Patch(Patch(code, windows, address), windows, address) == Patch(code, windows, address)
  {
    PatchOverlays(code, windows, address);
    var once := Patch(code, windows, address);
    PatchOverlays(once, windows, address);
    OverlayUnique(once, Patch(once, windows, address), once, windows, windows, address);
  }

  /** References that a compiler emits: supported, in bounds, not overlapping. */
  ghost predicate WellPlaced(artifact: Artifact, library: string) {
    var windows := Windows(artifact.references);
    Supported(artifact.references) && InBounds(From(artifact.code, 2), windows) && Apart(windows) && |library| == 2 + WINDOW
  }

  /** Linking succeeds exactly when there is a window and everything outside the windows, and the
      address itself, is already hex: an unlinked placeholder anywhere else is detected. */
  lemma LinkSucceedsIffNothingElseIsUnlinked(artifact: Artifact, library: string, r: Result<string, LinkError>)
    requires WellPlaced(artifact, library) && IsLinked(artifact, library, r)
    ensures var code, windows := From(artifact.code, 2), Windows(artifact.references);
      r.Ok? <==> (windows != [] && Hex(Lower(From(library, 2)))
                  && forall i: nat :: i < |code| && !Inside(i, windows) ==> HexDigit(code[i]))
  {
    var code, windows, address := From(artifact.code, 2), Windows(artifact.references), Lower(From(library, 2));
    var text := Patch(code, windows, address);
    PatchOverlays(code, windows, address);
    if r.Ok? {
      assert windows[0] in windows;
      forall d: nat | d < WINDOW ensures HexDigit(address[d]) {
        assert text[windows[0] + d] == address[windows[0] + d - windows[0]];
      }
      forall i: nat | i < |code| && !Inside(i, windows) ensures HexDigit(code[i]) {
        assert text[i] == code[i];
      }
    } else if windows != [] && Hex(address) && forall i: nat :: i < |code| && !Inside(i, windows) ==> HexDigit(code[i]) {
      assert windows[0] in windows;
      forall i: nat | i < |text| ensures HexDigit(text[i]) {
        if Inside(i, windows) {
          var w :| w in windows && w <= i < w + WINDOW;
        }
      }
    }
  }

  /** Relinking a linked artifact changes nothing, also when the references arrive in another order. */
  lemma LinkIsStable(artifact: Artifact, library: string, linked: string, again: seq<seq<Library>>, r: Result<string, LinkError>)
    requires WellPlaced(artifact, library) && IsLinked(artifact, library, Ok(linked))
    requires WellPlaced(artifact.(references := again), library)
    requires forall w :: w in Windows(artifact.references) <==> w in Windows(again)
    requires IsLinked(Artifact(linked, again), library, r)
    ensures r == Ok(linked)
  {
    var code, windows, address := From(artifact.code, 2), Windows(artifact.references), Lower(From(library, 2));
    var text := Patch(code, windows, address);
    assert linked[2..] == text;
    PatchOverlays(code, windows, address);
    PatchOrderIrrelevant(text, Windows(again), windows, address);
    PatchTwice(code, windows, address);
    assert windows[0] in Windows(again);
  }
}
