/**
 * The line protocol between chat client and server: the server-side reading of
 * one inbound line (Server.java:92-162) and the client's chat frame
 * `";" + private_mode + ";" + text` (Client.java:74, 150).
 */
module Protocol {
  import opened Wrappers
  import opened JavaString

  /** `"" + b` for a Java boolean */
  function BoolText(b: bool): string
  {
    if b then "true" else "false"
  }

  /** The chat frame the client sends for every line that is not a local command. */
  function Frame(privateMode: bool, text: string): string
  {
    ";" + BoolText(privateMode) + ";" + text
  }

  /** The quit sentinel: the lower-cased line starts with "/quit". */
  predicate IsQuit(input: string)
  {
    StartsWith(Lower(input), "/quit")
  }

  /** The words of a command line from position `k` on, as the loops `for (int i = k; i < words.length; i++)` visit them. */
  function WordsFrom(input: string, k: nat): seq<string>
  {
    var words := Split(input);
    if |words| <= k then [] else words[k..]
  }

  /** What the server makes of one line from a registered client. */
  datatype Inbound =
    | Quit
    | Block(targets: seq<string>)
    | Unblock(targets: seq<string>)
    | GroupRemove(targets: seq<string>)
    | GroupAdd(targets: seq<string>)
    | Chat(privateMode: bool, text: string)
    | Malformed   // no `;` after position 0: `substring(1, -1)` throws

  /**
   * The message branch: the flag is the text between position 1 and the first `;`
   * at or after position 1, the payload everything after that `;`.
   * The character at position 0 is never looked at.
   */
  function ParseFrame(input: string): (r: Option<(bool, string)>)
    ensures r.None? <==> forall i :: 1 <= i < |input| ==> input[i] != ';'
    ensures r.Some? ==>
      var k := |input| - |r.value.1| - 1;
      && 1 <= k && input[k] == ';'
      && (forall j :: 1 <= j < k ==> input[j] != ';')
      && r.value.0 == ParseBoolean(input[1..k])
      && input[k + 1..] == r.value.1
  {
    var end := IndexOf(input, ';', 1);
    if end < 0 then None else Some((ParseBoolean(input[1..end]), input[end + 1..]))
  }

  /** The dispatch of Server.java:93-162, in the order the source tests the prefixes. */
  function Classify(input: string): Inbound
  {
    if IsQuit(input) then Quit
    else if StartsWith(input, "BLOCK") then Block(WordsFrom(input, 1))
    else if StartsWith(input, "UNBLOCK") then Unblock(WordsFrom(input, 1))
    else if StartsWith(input, "PM REMOVE") then GroupRemove(WordsFrom(input, 2))
    else if StartsWith(input, "PM ADD") then GroupAdd(WordsFrom(input, 2))
    else
      match ParseFrame(input)
      case None => Malformed
      case Some((p, text)) => Chat(p, text)
  }

  /** Only a line that begins with `/` can be the quit sentinel. */
  lemma QuitLineStartsWithSlash(input: string)
    requires IsQuit(input)
    ensures |input| >= 5 && input[0] == '/'
  {
    assert Lower(input)[0] == '/';
  }

  /** The quit test comes first: a quit line is never read as a command or a message. */
  lemma QuitWins(input: string)
    ensures Classify(input) == Quit <==> IsQuit(input)
  {
  }

  /** A line that is neither quit nor a command and has no `;` after position 0 ends the session. */
  lemma MalformedIff(input: string)
    ensures Classify(input) == Malformed <==>
      && !IsQuit(input)
      && !StartsWith(input, "BLOCK") && !StartsWith(input, "UNBLOCK")
      && !StartsWith(input, "PM REMOVE") && !StartsWith(input, "PM ADD")
      && forall i :: 1 <= i < |input| ==> input[i] != ';'
  {
  }

  /** A line that starts with some prefix starts with that prefix's first character. */
  lemma StartsWithHead(s: string, p: string)
    requires StartsWith(s, p) && p != []
    ensures s[0] == p[0]
  {
    assert s[..|p|][0] == s[0];
  }

  /** A line whose first character is not `/` is not the quit sentinel. */
  lemma NotQuit(s: string)
    requires s != [] && s[0] != '/'
    ensures !IsQuit(s)
  {
    if IsQuit(s) {
      QuitLineStartsWithSlash(s);
    }
  }

  /** A prefix fixes each of its characters. */
  lemma StartsWithAt(s: string, p: string, k: nat)
    requires StartsWith(s, p) && k < |p|
    ensures s[k] == p[k]
  {
    assert s[..|p|][k] == s[k];
  }

  /** A line starting with BLOCK is a BLOCK command over its words from the second on. */
  lemma BlockLineIsBlock(input: string)
    requires StartsWith(input, "BLOCK")
    ensures Classify(input) == Block(WordsFrom(input, 1))
  {
    StartsWithAt(input, "BLOCK", 0);
    NotQuit(input);
  }

  /** A line starting with UNBLOCK is an UNBLOCK command over its words from the second on. */
  lemma UnblockLineIsUnblock(input: string)
    requires StartsWith(input, "UNBLOCK")
    ensures Classify(input) == Unblock(WordsFrom(input, 1))
  {
    StartsWithAt(input, "UNBLOCK", 0);
    NotQuit(input);
    if StartsWith(input, "BLOCK") { StartsWithAt(input, "BLOCK", 0); }
  }

  /** A line starting with PM ADD is a group addition over its words from the third on. */
  lemma GroupAddLineIsGroupAdd(input: string)
    requires StartsWith(input, "PM ADD")
    ensures Classify(input) == GroupAdd(WordsFrom(input, 2))
  {
    StartsWithAt(input, "PM ADD", 0);
    StartsWithAt(input, "PM ADD", 3);
    NotQuit(input);
    if StartsWith(input, "BLOCK") { StartsWithAt(input, "BLOCK", 0); }
    if StartsWith(input, "UNBLOCK") { StartsWithAt(input, "UNBLOCK", 0); }
    if StartsWith(input, "PM REMOVE") { StartsWithAt(input, "PM REMOVE", 3); }
  }

  /** A line starting with PM REMOVE is a group removal over its words from the third on. */
  lemma GroupRemoveLineIsGroupRemove(input: string)
    requires StartsWith(input, "PM REMOVE")
    ensures Classify(input) == GroupRemove(WordsFrom(input, 2))
  {
    StartsWithAt(input, "PM REMOVE", 0);
    NotQuit(input);
    if StartsWith(input, "BLOCK") { StartsWithAt(input, "BLOCK", 0); }
    if StartsWith(input, "UNBLOCK") { StartsWithAt(input, "UNBLOCK", 0); }
  }

  /** A line starting with `;` is neither the quit sentinel nor a command. */
  lemma SemicolonLineIsMessage(input: string)
    requires input != [] && input[0] == ';'
    ensures Classify(input) == match ParseFrame(input)
                               case None => Malformed
                               case Some((p, text)) => Chat(p, text)
  {
    if IsQuit(input) {
      QuitLineStartsWithSlash(input);
    }
    if StartsWith(input, "BLOCK") { StartsWithHead(input, "BLOCK"); }
    if StartsWith(input, "UNBLOCK") { StartsWithHead(input, "UNBLOCK"); }
    if StartsWith(input, "PM REMOVE") { StartsWithHead(input, "PM REMOVE"); }
    if StartsWith(input, "PM ADD") { StartsWithHead(input, "PM ADD"); }
  }

  /** The server's frame parser undoes the client's framing. */
  lemma ParseFrameOfFrame(privateMode: bool, text: string)
    ensures ParseFrame(Frame(privateMode, text)) == Some((privateMode, text))
  {
    var f := Frame(privateMode, text);
    var b := BoolText(privateMode);
    var k := |b| + 1;
    assert f[k] == ';';
    assert forall j :: 1 <= j < k ==> f[j] == b[j - 1];
    assert IndexOf(f, ';', 1) == k;
    assert f[1..k] == b;
    assert f[k + 1..] == text;
    ParseBooleanLiterals();
  }

  /** Every frame the client sends is read back by the server as the same mode and the same text. */
  lemma FrameRoundTrip(privateMode: bool, text: string)
    ensures Classify(Frame(privateMode, text)) == Chat(privateMode, text)
  {
    SemicolonLineIsMessage(Frame(privateMode, text));
    ParseFrameOfFrame(privateMode, text);
  }
}
