/**
 The streaming branch of TextModeratorEngine.Process (pkg/engines/moderator/moderator.go, lines 163-265):
 chunks are held back until the text so far has passed a check.
 */
module ModerationGate {
  import opened Prelude
  import opened Text

  datatype Extracted = Text(runes: string) | Done | Failed

  /**
   What surrounds the stream: the adapter, the service with its window, and the batch size. The answer of a
   check may depend on how many chunks had been counted, so a check skipped by sampling is one that passes.
   */
  datatype Gate = Gate(
    extract: string -> Extracted,
    replacement: string -> Option<string>,
    allow: (nat, string) -> bool,
    every: int,
    maxRuneLen: nat)

  /** The chunks let through, the replacement sent after them, and the is_spam mark. */
  datatype Delivery = Delivery(passed: seq<string>, replacement: Option<string>, spam: bool)

  function Every(g: Gate): nat {
    if g.every <= 0 then 10 else g.every
  }

  /** How many chunks b full batches hold. */
  function Start(g: Gate, b: nat): nat {
    if b == 0 then 0 else Start(g, b - 1) + Every(g)
  }

  /** How many full batches n chunks make. */
  function BatchOf(g: Gate, n: nat): (b: nat)
    ensures Start(g, b) <= n < Start(g, b) + Every(g)
  {
    if n < Every(g) then 0 else 1 + BatchOf(g, n - Every(g))
  }

  lemma {:induction false} StartIsProduct(g: Gate, b: nat)
    ensures Start(g, b) == b * Every(g)
  {
    if b > 0 {
      StartIsProduct(g, b - 1);
      assert b * Every(g) == (b - 1) * Every(g) + Every(g);
    }
  }

  lemma {:induction false} StartMono(g: Gate, a: nat, b: nat)
    requires a <= b
    ensures Start(g, a) <= Start(g, b)
    ensures a < b ==> Start(g, a) + Every(g) <= Start(g, b)
    decreases b
  {
    if a < b {
      StartMono(g, a, b - 1);
    }
  }

  function Suffix(s: string, max: nat): string {
    if |s| > max then s[|s| - max..] else s
  }

  lemma SuffixTwice(s: string, more: string, max: nat)
    ensures Suffix(Suffix(s, max) + more, max) == Suffix(s + more, max)
  {
    if |s| > max {
      var cut := |s| - max;
      DropFront(s, more, cut);
      assert |s[cut..] + more| == max + |more|;
      DropTwice(s + more, cut, |more|);
    }
  }

  lemma DropFront(s: string, more: string, cut: nat)
    requires cut <= |s|
    ensures (s + more)[cut..] == s[cut..] + more
  {
  }

  lemma DropTwice(s: string, a: nat, b: nat)
    requires a + b <= |s|
    ensures s[a..][b..] == s[a + b..]
  {
  }

  predicate IsText(g: Gate, chunk: string) {
    g.extract(chunk).Text?
  }

  /** How many chunks come before the first one without text. */
  function Leading(g: Gate, input: seq<string>): (n: nat)
    ensures n <= |input|
    ensures forall k :: 0 <= k < n ==> IsText(g, input[k])
    ensures n < |input| ==> !IsText(g, input[n])
  {
    if input == [] || !IsText(g, input[0]) then 0 else 1 + Leading(g, input[1..])
  }

  /** All the text of the first i chunks. */
  function TextOf(g: Gate, input: seq<string>, i: nat): string
    requires i <= |input|
  {
    if i == 0 then ""
    else
      var before := TextOf(g, input, i - 1);
      match g.extract(input[i - 1]) case Text(t) => before + t case _ => before
  }

  /** What a check after i chunks looks at. */
  function View(g: Gate, input: seq<string>, i: nat): string
    requires i <= |input|
  {
    Trim(Suffix(TextOf(g, input, i), g.maxRuneLen))
  }

  predicate Passes(g: Gate, counted: nat, view: string) {
    view == "" || g.allow(counted, view)
  }

  /** The check that releases batch number b, counting from 1. */
  predicate BatchPasses(g: Gate, input: seq<string>, b: nat) {
    Start(g, b) <= |input| && Passes(g, Start(g, b), View(g, input, Start(g, b)))
  }

  /** How many batches, of the first b, pass before one fails. */
  function Good(g: Gate, input: seq<string>, b: nat): (k: nat)
    ensures k <= b
  {
    if b == 0 then 0
    else
      var before := Good(g, input, b - 1);
      if before == b - 1 && BatchPasses(g, input, b) then b else before
  }

  function Block(g: Gate, input: seq<string>, from: nat): Delivery
    requires from <= |input|
  {
    Delivery(input[..from], if from < |input| then g.replacement(input[from]) else None, true)
  }

  /** Where the stream ends for the gate: after [DONE], or with the text. */
  function End(g: Gate, input: seq<string>): (n: nat)
    ensures n <= |input|
  {
    var n := Leading(g, input);
    if n < |input| && g.extract(input[n]).Done? then n + 1 else n
  }

  predicate Breaks(g: Gate, input: seq<string>) {
    Leading(g, input) < |input| && g.extract(input[Leading(g, input)]).Failed?
  }

  /** Full batches among the text chunks. */
  function Batches(g: Gate, input: seq<string>): nat {
    BatchOf(g, Leading(g, input))
  }

  /** How many chunks come out in full batches. */
  function Released(g: Gate, input: seq<string>): (n: nat)
    ensures n <= Leading(g, input)
    ensures Good(g, input, Batches(g, input)) < Batches(g, input) ==> n < Leading(g, input)
  {
    var b := Batches(g, input);
    StartMono(g, Good(g, input, b), b);
    Start(g, Good(g, input, b))
  }

  /** The check for what remains after the full batches. */
  predicate TailPasses(g: Gate, input: seq<string>) {
    End(g, input) == Start(g, Batches(g, input)) ||
    Passes(g, End(g, input), View(g, input, Leading(g, input)))
  }

  /** Everything up to the end when all checks pass, else the batches before the first failure. */
  function Delivered(g: Gate, input: seq<string>): Delivery {
    var b := Batches(g, input);
    var from := Released(g, input);
    if Good(g, input, b) < b then Block(g, input, from)
    else if Breaks(g, input) then
      Delivery(input[..from], if from < Leading(g, input) then g.replacement(input[from]) else None, true)
    else if TailPasses(g, input) then Delivery(input[..End(g, input)], None, false)
    else Block(g, input, from)
  }

  lemma {:induction false} GoodStays(g: Gate, input: seq<string>, b: nat, c: nat)
    requires b <= c && Good(g, input, b) < b
    ensures Good(g, input, c) == Good(g, input, b)
    decreases c
  {
    if b < c {
      GoodStays(g, input, b, c - 1);
    }
  }

  /** Good counts exactly: everything before passes, and if it stops short the next batch fails. */
  lemma {:induction false} GoodMeans(g: Gate, input: seq<string>, b: nat)
    ensures forall j :: 1 <= j <= Good(g, input, b) ==> BatchPasses(g, input, j)
    ensures Good(g, input, b) < b ==> !BatchPasses(g, input, Good(g, input, b) + 1)
  {
    hide BatchPasses;
    if b > 0 {
      GoodMeans(g, input, b - 1);
    }
  }

  lemma {:induction false} LeadingAt(g: Gate, input: seq<string>, n: nat)
    requires n <= |input| && forall k :: 0 <= k < n ==> IsText(g, input[k])
    requires n < |input| ==> !IsText(g, input[n])
    ensures Leading(g, input) == n
    decreases n
  {
    if n > 0 {
      LeadingAt(g, input[1..], n - 1);
    }
  }

  lemma {:induction false} LeadingAtLeast(g: Gate, input: seq<string>, n: nat)
    requires n <= |input| && forall k :: 0 <= k < n ==> IsText(g, input[k])
    ensures Leading(g, input) >= n
    decreases n
  {
    if n > 0 {
      LeadingAtLeast(g, input[1..], n - 1);
    }
  }

  lemma BatchesAre(g: Gate, n: nat, b: nat)
    requires Start(g, b) <= n < Start(g, b) + Every(g)
    ensures BatchOf(g, n) == b
  {
    hide BatchOf;
    var c := BatchOf(g, n);
    if c < b {
      StartMono(g, c, b);
    } else if b < c {
      StartMono(g, b, c);
    }
  }

  lemma BatchFailed(g: Gate, input: seq<string>, b: nat)
    requires Good(g, input, b + 1) == b && Start(g, b + 1) <= Leading(g, input)
    ensures Start(g, b + 1) == Start(g, b) + Every(g)
    ensures Delivered(g, input) == Block(g, input, Start(g, b))
  {
    hide BatchPasses, Leading, BatchOf;
    var c := Batches(g, input);
    if c < b + 1 {
      StartMono(g, c + 1, b + 1);
    }
    GoodStays(g, input, b + 1, c);
  }

  /** The loop's state after i chunks of text, b batches of them released: chunks from..i are held back. */
  ghost predicate Held(g: Gate, input: seq<string>, b: nat, from: nat, i: nat, text: string,
                       held: seq<string>, sent: seq<string>)
  {
    from == Start(g, b) && from <= i < from + Every(g) && i <= |input| &&
    (forall k :: 0 <= k < i ==> IsText(g, input[k])) &&
    text == Suffix(TextOf(g, input, i), g.maxRuneLen) &&
    sent == input[..from] && held == input[from..i] && Good(g, input, b) == b
  }

  method AddText(textBuffer: string, text: string, max: nat) returns (r: string)
    ensures r == Suffix(textBuffer + text, max)
  {
    r := textBuffer + text;
    if |r| > max {
      r := r[|r| - max..];
    }
  }

  method Check(g: Gate, counted: nat, text: string) returns (ok: bool)
    ensures ok <==> Passes(g, counted, Trim(text))
  {
    var trimmed := TrimLoop(text);
    if |trimmed| != 0 {
      return g.allow(counted, trimmed);
    }
    return true;
  }

  lemma OneMore(g: Gate, input: seq<string>, b: nat, from: nat, i: nat, text: string,
                held: seq<string>, sent: seq<string>)
    requires Held(g, input, b, from, i, text, held, sent) && i < |input| && IsText(g, input[i])
    ensures Suffix(text + g.extract(input[i]).runes, g.maxRuneLen) == Suffix(TextOf(g, input, i + 1), g.maxRuneLen)
    ensures held + [input[i]] == input[from..i + 1]
    ensures sent + (held + [input[i]]) == input[..i + 1]
    ensures Leading(g, input) >= i + 1
  {
    hide Suffix, Good, Leading, Every, TextOf, Start;
    SuffixTwice(TextOf(g, input, i), g.extract(input[i]).runes, g.maxRuneLen);
    TextGrows(g, input, i);
    LeadingAtLeast(g, input, i + 1);
    assert input[..from] + input[from..i + 1] == input[..i + 1];
  }

  lemma TextGrows(g: Gate, input: seq<string>, i: nat)
    requires i < |input| && IsText(g, input[i])
    ensures TextOf(g, input, i + 1) == TextOf(g, input, i) + g.extract(input[i]).runes
  {
  }

  lemma BatchVerdict(g: Gate, input: seq<string>, b: nat, from: nat, i: nat)
    requires from == Start(g, b) && i == from + Every(g) && i <= Leading(g, input)
    requires Good(g, input, b) == b
    ensures i == Start(g, b + 1)
    ensures Passes(g, i, View(g, input, i)) ==> Good(g, input, b + 1) == b + 1
    ensures !Passes(g, i, View(g, input, i)) ==> Delivered(g, input) == Block(g, input, from)
  {
    hide Passes, View, Delivered, Leading;
    assert i == Start(g, b + 1);
    if !Passes(g, i, View(g, input, i)) {
      BatchFailed(g, input, b);
    }
  }

  lemma Ended(g: Gate, input: seq<string>, b: nat, from: nat, i: nat)
    requires from == Start(g, b) && from <= i < from + Every(g) && i <= |input|
    requires forall k :: 0 <= k < i ==> IsText(g, input[k])
    requires i < |input| ==> !IsText(g, input[i])
    ensures Leading(g, input) == i && Batches(g, input) == b && from <= End(g, input)
  {
    LeadingAt(g, input, i);
    BatchesAre(g, i, b);
  }

  /** After the loop: the remaining chunks, or their replacement. */
  method Finish(g: Gate, input: seq<string>, ghost b: nat, ghost from: nat, i: nat, text: string,
                held: seq<string>, sent: seq<string>)
    returns (r: Delivery)
    requires Held(g, input, b, from, i, text, held, sent)
    requires i < |input| ==> !IsText(g, input[i])
    ensures r == Delivered(g, input)
  {
    hide Leading, Batches, Passes, Trim, Suffix;
    Ended(g, input, b, from, i);
    if i < |input| && g.extract(input[i]).Failed? {
      return Delivery(sent, if |held| > 0 then g.replacement(held[0]) else None, true);
    }
    var chunkBuffer, counted := held, i;
    if i < |input| {
      chunkBuffer := chunkBuffer + [input[i]];
      counted := counted + 1;
    }
    assert chunkBuffer == input[from..End(g, input)] && counted == End(g, input);
    assert sent + chunkBuffer == input[..End(g, input)];
    if |chunkBuffer| > 0 {
      var ok := Check(g, counted, text);
      if !ok {
        return Delivery(sent, g.replacement(chunkBuffer[0]), true);
      }
    }
    return Delivery(sent + chunkBuffer, None, false);
  }

  /** The goroutine that feeds the new stream. */
  method ModerateStream(g: Gate, input: seq<string>) returns (r: Delivery)
    ensures r == Delivered(g, input)
  {
    hide Trim, Leading, Delivered, Passes, Suffix, TextOf;
    var textBuffer: string := "";
    var chunkBuffer: seq<string> := [];
    var sinceLast := 0;
    var sent: seq<string> := [];
    ghost var b, from := 0, 0;
    var i := 0;
    Nothing(g, input);
    while i < |input| && IsText(g, input[i])
      invariant Held(g, input, b, from, i, textBuffer, chunkBuffer, sent)
      invariant i == from + sinceLast
    {
      OneMore(g, input, b, from, i, textBuffer, chunkBuffer, sent);
      textBuffer := AddText(textBuffer, g.extract(input[i]).runes, g.maxRuneLen);
      chunkBuffer := chunkBuffer + [input[i]];
      sinceLast := sinceLast + 1;
      i := i + 1;
      if sinceLast >= Every(g) {
        BatchVerdict(g, input, b, from, i);
        var ok := Check(g, i, textBuffer);
        if !ok {
          return Delivery(sent, g.replacement(chunkBuffer[0]), true);
        }
        sent := sent + chunkBuffer;
        chunkBuffer := [];
        sinceLast := 0;
        b, from := b + 1, i;
      }
    }
    r := Finish(g, input, b, from, i, textBuffer, chunkBuffer, sent);
  }

  lemma Nothing(g: Gate, input: seq<string>)
    ensures Held(g, input, 0, 0, 0, "", [], [])
  {
  }

  // ----- What the gate promises -----

  predicate AllPass(g: Gate, input: seq<string>) {
    !Breaks(g, input) && TailPasses(g, input) &&
    forall j :: 1 <= j <= Batches(g, input) ==> BatchPasses(g, input, j)
  }

  /** Delivered chunks are the input's first ones, never past [DONE]; a replacement comes only after a block. */
  lemma PrefixDelivered(g: Gate, input: seq<string>)
    ensures var d := Delivered(g, input);
      |d.passed| <= End(g, input) && d.passed == input[..|d.passed|] && (d.replacement.Some? ==> d.spam)
  {
    hide Leading, BatchPasses, TailPasses;
  }

  /** Everything is delivered, unmarked, exactly when every check passes; otherwise the stream is marked. */
  lemma DeliveredExactly(g: Gate, input: seq<string>)
    ensures Delivered(g, input).spam <==> !AllPass(g, input)
    ensures AllPass(g, input) ==> Delivered(g, input).passed == input[..End(g, input)]
  {
    hide Leading, BatchPasses, TailPasses;
    GoodMeans(g, input, Batches(g, input));
  }

  /** No chunk comes out before the check of its own batch, on all text so far, has passed. */
  lemma ReleasedAfterCheck(g: Gate, input: seq<string>, p: nat)
    requires p < |Delivered(g, input).passed|
    ensures BatchPasses(g, input, BatchOf(g, p) + 1) ||
      (!Delivered(g, input).spam && p >= Start(g, Batches(g, input)) &&
       Passes(g, End(g, input), View(g, input, Leading(g, input))))
  {
    hide Leading, BatchPasses, Passes, View, Every, Good, BatchOf;
    var b := Batches(g, input);
    var good := Good(g, input, b);
    GoodMeans(g, input, b);
    if p < Start(g, good) && good <= BatchOf(g, p) {
      StartMono(g, good, BatchOf(g, p));
      assert false;
    }
  }

  lemma BatchOfIsQuotient(g: Gate, n: nat)
    ensures BatchOf(g, n) == n / Every(g)
  {
    StartIsProduct(g, n / Every(g));
    BatchesAre(g, n, n / Every(g));
  }

  // ----- The same, spelled out -----

  /** Ten chunks to a batch unless configured otherwise. */
  function BatchSize(g: Gate): nat {
    if g.every > 0 then g.every else 10
  }

  /** w is the last max runes of the text, or all of it. */
  predicate IsWindow(w: string, text: string, max: nat) {
    |w| <= |text| && |w| == Min(|text|, max) && w == text[|text| - |w|..]
  }

  /** The check after i chunks of text, made when counted chunks had been counted: empty windows pass unasked. */
  predicate CheckPasses(g: Gate, input: seq<string>, i: nat, counted: nat, w: string)
    requires i <= |input|
  {
    IsWindow(w, TextOf(g, input, i), g.maxRuneLen) && (Trim(w) == "" || g.allow(counted, Trim(w)))
  }

  lemma WindowExactly(g: Gate, input: seq<string>, i: nat, counted: nat, w: string)
    requires i <= |input| && IsWindow(w, TextOf(g, input, i), g.maxRuneLen)
    ensures Passes(g, counted, View(g, input, i)) <==> CheckPasses(g, input, i, counted, w)
  {
    assert Suffix(TextOf(g, input, i), g.maxRuneLen) == w;
  }

  function Window(g: Gate, input: seq<string>, i: nat): (w: string)
    requires i <= |input|
    ensures IsWindow(w, TextOf(g, input, i), g.maxRuneLen)
  {
    var text := TextOf(g, input, i);
    text[|text| - Min(|text|, g.maxRuneLen)..]
  }

  /** Batch b, counting from 1, passes its own check on the window of all text so far. */
  predicate BatchChecked(g: Gate, input: seq<string>, b: nat) {
    b * BatchSize(g) <= |input| &&
    CheckPasses(g, input, b * BatchSize(g), b * BatchSize(g), Window(g, input, b * BatchSize(g)))
  }

  lemma BatchExactly(g: Gate, input: seq<string>, b: nat)
    ensures Start(g, b) == b * BatchSize(g)
    ensures BatchPasses(g, input, b) <==> BatchChecked(g, input, b)
  {
    hide Passes, View, CheckPasses, IsWindow;
    StartIsProduct(g, b);
    if Start(g, b) <= |input| {
      WindowExactly(g, input, Start(g, b), Start(g, b), Window(g, input, Start(g, b)));
    }
  }

  /** The chunks that the gate gets to see: up to [DONE], or up to one whose text cannot be extracted. */
  function Seen(g: Gate, input: seq<string>): nat {
    if Breaks(g, input) then Leading(g, input) else End(g, input)
  }

  /**
   What a marked stream delivers: whole batches, every one of them checked; the next full batch failed, or
   there was none and either the text broke off or the rest failed its check; and the replacement is made
   for the first chunk held back, if one was.
   */
  lemma BlockedSays(g: Gate, input: seq<string>) returns (b: nat)
    requires Delivered(g, input).spam
    ensures var d, n := Delivered(g, input), Leading(g, input);
      && |d.passed| == b * BatchSize(g) && d.passed <= input
      && (forall j :: 1 <= j <= b ==> BatchChecked(g, input, j))
      && d.replacement == (if |d.passed| < Seen(g, input) then g.replacement(input[|d.passed|]) else None)
      && (if (b + 1) * BatchSize(g) <= n then !BatchChecked(g, input, b + 1)
          else Breaks(g, input) ||
               (|d.passed| < End(g, input) && !CheckPasses(g, input, n, End(g, input), Window(g, input, n))))
  {
    hide Leading, BatchPasses, CheckPasses, Passes, View, IsWindow, BatchChecked;
    var batches := Batches(g, input);
    b := Good(g, input, batches);
    GoodMeans(g, input, batches);
    forall j | 1 <= j <= b ensures BatchChecked(g, input, j) {
      BatchExactly(g, input, j);
    }
    BatchExactly(g, input, b);
    BatchExactly(g, input, b + 1);
    WindowExactly(g, input, Leading(g, input), End(g, input), Window(g, input, Leading(g, input)));
    if b < batches {
      StartMono(g, b + 1, batches);
    }
  }

  /** And when nothing is delivered marked: every check passed and the text did not break off. */
  lemma PassedSays(g: Gate, input: seq<string>)
    requires !Delivered(g, input).spam
    ensures var d, n := Delivered(g, input), Leading(g, input);
      && d.passed == input[..End(g, input)] && d.replacement == None && !Breaks(g, input)
      && (forall j :: 1 <= j && j * BatchSize(g) <= n ==> BatchChecked(g, input, j))
      && ((exists b :: 0 <= b <= n && b * BatchSize(g) == End(g, input)) ||
          CheckPasses(g, input, n, End(g, input), Window(g, input, n)))
  {
    hide Leading, BatchPasses, CheckPasses, Passes, View, IsWindow, BatchChecked;
    var batches, n := Batches(g, input), Leading(g, input);
    DeliveredExactly(g, input);
    forall j | 1 <= j && j * BatchSize(g) <= n ensures BatchChecked(g, input, j) {
      BatchExactly(g, input, j);
      if batches < j {
        StartMono(g, batches + 1, j);
      }
    }
    BatchExactly(g, input, batches);
    WindowExactly(g, input, n, End(g, input), Window(g, input, n));
    BatchesFew(g, batches);
  }

  lemma {:induction false} BatchesFew(g: Gate, b: nat)
    ensures b <= Start(g, b)
  {
    if b > 0 {
      BatchesFew(g, b - 1);
    }
  }
}
