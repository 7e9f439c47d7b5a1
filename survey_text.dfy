/**
 * The `questions_text` formatter of `createParticipantToken`: each survey
 * question becomes one text block, and the blocks are joined in order with
 * nothing between them.
 *
 * `options` is the question's raw options string, whose emptiness decides
 * whether a multiple-choice question lists its options; `optionEntries` is
 * the ordered key/value list that parsing that string yields.
 */
module SurveyText {

  datatype Question = Question(
    questionId: string,
    text: string,
    qtype: string,
    minValue: string,
    maxValue: string,
    options: string,
    optionEntries: seq<(string, string)>)

  /** `parts.join("")`: the parts one after the other. */
  function Join(parts: seq<string>): string {
    if |parts| == 0 then "" else parts[0] + Join(parts[1..])
  }

  /** Adding one part at the end adds exactly that part at the end. */
  lemma {:induction false} JoinSnoc(parts: seq<string>, p: string)
    ensures Join(parts + [p]) == Join(parts) + p
    decreases |parts|
  {
    if |parts| > 0 {
      assert (parts + [p])[1..] == parts[1..] + [p];
      JoinSnoc(parts[1..], p);
    }
  }

  /** Extending a prefix of the parts by one part extends the joined text by that part. */
  lemma JoinStep(parts: seq<string>, i: nat)
    requires i < |parts|
    ensures Join(parts[..i + 1]) == Join(parts[..i]) + parts[i]
  {
    assert parts[..i + 1] == parts[..i] + [parts[i]];
    JoinSnoc(parts[..i], parts[i]);
  }

  /** Joining two lists one after the other is joining each and placing the results one after the other. */
  lemma {:induction false} JoinAppend(a: seq<string>, b: seq<string>)
    ensures Join(a + b) == Join(a) + Join(b)
    decreases |a|
  {
    if |a| > 0 {
      assert (a + b)[1..] == a[1..] + b;
      JoinAppend(a[1..], b);
    } else {
      assert a + b == b;
    }
  }

  /** The k-th part sits between the parts before it and the parts after it. */
  lemma JoinAt(parts: seq<string>, k: nat)
    requires k < |parts|
    ensures Join(parts) == Join(parts[..k]) + parts[k] + Join(parts[k + 1..])
  {
    assert parts == parts[..k] + parts[k..];
    JoinAppend(parts[..k], parts[k..]);
  }

  /** The two lines every block starts with. */
  function Header(q: Question): string {
    "Question ID: " + q.questionId + "\n" + "Question: " + q.text + "\n"
  }

  function OptionLine(entry: (string, string)): string {
    "- " + entry.0 + ": " + entry.1 + "\n"
  }

  function OptionLineList(entries: seq<(string, string)>): seq<string> {
    seq(|entries|, i requires 0 <= i < |entries| => OptionLine(entries[i]))
  }

  /** One option line per entry, in entry order. */
  function OptionLines(entries: seq<(string, string)>): string {
    Join(OptionLineList(entries))
  }

  /** Whether a question takes the multiple-choice branch: its options string must be non-empty. */
  predicate ListsOptions(q: Question) {
    q.qtype == "multiple_choice" && q.options != ""
  }

  /** The lines between the header and the closing blank line, chosen by the question type. */
  function TypeSection(q: Question): string {
    if q.qtype == "rating" then
      "Type: Rating scale from " + q.minValue + " to " + q.maxValue + "\n"
    else if ListsOptions(q) then
      "Type: Multiple choice\n" + "Options:\n" + OptionLines(q.optionEntries)
    else
      "Type: " + q.qtype + "\n"
  }

  /** The block of one question. */
  function Block(q: Question): string {
    Header(q) + TypeSection(q) + "\n"
  }

  function Blocks(qs: seq<Question>): seq<string> {
    seq(|qs|, i requires 0 <= i < |qs| => Block(qs[i]))
  }

  /** `questions.map(block).join("")`. */
  function QuestionsText(qs: seq<Question>): string {
    Join(Blocks(qs))
  }

  /** The text of two question lists placed one after the other is the two texts placed one after the other. */
  lemma QuestionsTextAppend(a: seq<Question>, b: seq<Question>)
    ensures QuestionsText(a + b) == QuestionsText(a) + QuestionsText(b)
  {
    BlocksAppend(a, b);
    JoinAppend(Blocks(a), Blocks(b));
  }

  lemma BlocksAppend(a: seq<Question>, b: seq<Question>)
    ensures Blocks(a + b) == Blocks(a) + Blocks(b)
  {
  }

  /** The k-th question's block sits between the blocks of the questions before and after it. */
  lemma QuestionsTextAt(qs: seq<Question>, k: nat)
    requires k < |qs|
    ensures QuestionsText(qs) == QuestionsText(qs[..k]) + Block(qs[k]) + QuestionsText(qs[k + 1..])
  {
    var blocks := Blocks(qs);
    JoinAt(blocks, k);
    BlocksPrefix(qs, k);
    BlocksSuffix(qs, k + 1);
  }

  lemma BlocksPrefix(qs: seq<Question>, k: nat)
    requires k <= |qs|
    ensures Blocks(qs[..k]) == Blocks(qs)[..k]
  {
  }

  lemma BlocksSuffix(qs: seq<Question>, k: nat)
    requires k <= |qs|
    ensures Blocks(qs[k..]) == Blocks(qs)[k..]
  {
  }

  /** The k-th entry's line sits between the lines of the entries before and after it. */
  lemma OptionLinesAt(entries: seq<(string, string)>, k: nat)
    requires k < |entries|
    ensures OptionLines(entries) == OptionLines(entries[..k]) + OptionLine(entries[k]) + OptionLines(entries[k + 1..])
  {
    JoinAt(OptionLineList(entries), k);
    OptionLineListPrefix(entries, k);
    OptionLineListSuffix(entries, k + 1);
  }

  lemma OptionLineListPrefix(entries: seq<(string, string)>, k: nat)
    requires k <= |entries|
    ensures OptionLineList(entries[..k]) == OptionLineList(entries)[..k]
  {
  }

  lemma OptionLineListSuffix(entries: seq<(string, string)>, k: nat)
    requires k <= |entries|
    ensures OptionLineList(entries[k..]) == OptionLineList(entries)[k..]
  {
  }

  /** No questions give the empty text; every block starts with its header and ends with a newline. */
  lemma BlockFraming(q: Question)
    ensures QuestionsText([]) == ""
    ensures |Block(q)| > |Header(q)| && Block(q)[..|Header(q)|] == Header(q)
    ensures Block(q)[|Block(q)| - 1] == '\n'
  {
  }

  /** A rating question shows its range, whatever its options say. */
  lemma RatingBlock(q: Question, options: string, entries: seq<(string, string)>)
    requires q.qtype == "rating"
    ensures Block(q) == Header(q) + "Type: Rating scale from " + q.minValue + " to " + q.maxValue + "\n" + "\n"
    ensures Block(q.(options := options, optionEntries := entries)) == Block(q)
  {
  }

  /** Any other type, and a multiple-choice question with an empty options string, get the plain type line. */
  lemma PlainTypeBlock(q: Question)
    requires q.qtype != "rating"
    requires q.qtype != "multiple_choice" || q.options == ""
    ensures Block(q) == Header(q) + "Type: " + q.qtype + "\n" + "\n"
  {
  }

  /**
   * A multiple-choice question with a non-empty options string lists its option
   * lines; `OptionLinesAt` places each entry's line in entry order.
   */
  lemma MultipleChoiceBlock(q: Question)
    requires q.qtype == "multiple_choice" && q.options != ""
    ensures Block(q) == Header(q) + "Type: Multiple choice\nOptions:\n" + OptionLines(q.optionEntries) + "\n"
  {
  }

  /** The `forEach` over the option entries: appends one line per entry to `text`. */
  method AppendOptionLines(text: string, entries: seq<(string, string)>) returns (out: string)
    ensures out == text + OptionLines(entries)
  {
    ghost var lines := OptionLineList(entries);
    out := text;
    var i := 0;
    while i < |entries|
      invariant 0 <= i <= |entries|
      invariant out == text + Join(lines[..i])
    {
      var (key, value) := entries[i];
      out := out + "- " + key + ": " + value + "\n";
      JoinStep(lines, i);
      i := i + 1;
    }
    assert lines[..i] == lines;
  }

  /** One question's block, built line by line as the source does. */
  method FormatQuestion(q: Question) returns (text: string)
    ensures text == Block(q)
  {
    text := "Question ID: " + q.questionId + "\n";
    text := text + "Question: " + q.text + "\n";
    assert text == Header(q);
    if q.qtype == "rating" {
      text := text + "Type: Rating scale from " + q.minValue + " to " + q.maxValue + "\n";
      assert text == Header(q) + TypeSection(q);
    } else if q.qtype == "multiple_choice" && q.options != "" {
      text := text + "Type: Multiple choice\n";
      text := text + "Options:\n";
      assert text == Header(q) + ("Type: Multiple choice\n" + "Options:\n");
      text := AppendOptionLines(text, q.optionEntries);
      assert text == Header(q) + TypeSection(q);
    } else {
      text := text + "Type: " + q.qtype + "\n";
      assert text == Header(q) + TypeSection(q);
    }
    text := text + "\n";
  }

  /** All blocks, joined in order. */
  method FormatQuestions(qs: seq<Question>) returns (text: string)
    ensures text == QuestionsText(qs)
  {
    ghost var blocks := Blocks(qs);
    text := "";
    var i := 0;
    while i < |qs|
      invariant 0 <= i <= |qs|
      invariant text == Join(blocks[..i])
    {
      var block := FormatQuestion(qs[i]);
      JoinStep(blocks, i);
      text := text + block;
      i := i + 1;
    }
    assert blocks[..i] == blocks;
  }
}
