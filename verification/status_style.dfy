/** The CSS class a status is displayed with, on the Dashboard status cards
    and on the lead list's status badges (the same expression in both). */
module StatusStyle {

  /** JavaScript `toLowerCase` on the ASCII letters. */
  function LowerChar(c: char): (r: char)
    ensures !('A' <= r <= 'Z')
    ensures r != c <==> 'A' <= c <= 'Z'
    ensures 'A' <= c <= 'Z' ==> r as int == c as int + 32
  {
    if 'A' <= c <= 'Z' then (c as int - 'A' as int + 'a' as int) as char else c
  }

  function ToLower(s: string): (r: string)
    ensures |r| == |s|
    ensures forall i :: 0 <= i < |s| ==> r[i] == LowerChar(s[i])
  {
    seq(|s|, i requires 0 <= i < |s| => LowerChar(s[i]))
  }

  lemma ToLowerAppend(a: string, b: string)
    ensures ToLower(a + b) == ToLower(a) + ToLower(b)
  {
  }

  /** `s.indexOf(" ")`, with `|s|` standing for "not found". */
  function IndexOfSpace(s: string): (k: nat)
    ensures k <= |s|
    ensures k < |s| ==> s[k] == ' '
    ensures ' ' !in s[..k]
  {
    if s == [] then 0
    else if s[0] == ' ' then 0
    else
      var k := IndexOfSpace(s[1..]);
      assert s[..k + 1] == [s[0]] + s[1..][..k];
      k + 1
  }

  /** The first space is where `indexOf` finds it. */
  lemma {:induction false} IndexOfSpaceAt(s: string, k: nat)
    requires k < |s| && s[k] == ' ' && ' ' !in s[..k]
    ensures IndexOfSpace(s) == k
  {
    if k > 0 {
      assert s[0] == s[..k][0];
      assert s[1..][..k - 1] == s[1..k];
      assert forall c :: c in s[1..k] ==> c in s[..k];
      IndexOfSpaceAt(s[1..], k - 1);
    }
  }

  /** `s.replace(" ", "-")`: a string pattern replaces its first occurrence
      only. Every other character is kept, and a space becomes a dash exactly
      when no space comes before it. */
  function ReplaceFirstSpace(s: string): (r: string)
    ensures |r| == |s|
    ensures forall i :: 0 <= i < |s| && s[i] != ' ' ==> r[i] == s[i]
    ensures forall i :: 0 <= i < |s| && s[i] == ' ' ==> (r[i] == '-' <==> ' ' !in s[..i])
    ensures forall i :: 0 <= i < |s| && s[i] == ' ' ==> (r[i] == ' ' <==> ' ' in s[..i])
  {
    var k := IndexOfSpace(s);
    if k == |s| then s
    else
      forall i | k < i < |s| ensures ' ' in s[..i] {
        assert s[..i][k] == ' ';
      }
      s[..k] + "-" + s[k + 1..]
  }

  /** The CSS class of a status card (and of a status badge in the lead
      list): the status lower-cased, its first space turned into a dash. The
      contract only keeps the length; what the class is for each kind of
      status is stated by `SingleWordStatusClass` and `TwoWordStatusClass`. */
  function StatusClass(status: string): (r: string)
    ensures |r| == |status|
  {
    ReplaceFirstSpace(ToLower(status))
  }

  /** A status without a space is only lower-cased. */
  lemma SingleWordStatusClass(status: string, lower: string)
    requires ToLower(status) == lower && ' ' !in lower
    ensures StatusClass(status) == lower
  {
  }

  /** The single-word pipeline statuses get the classes the style sheet
      defines. */
  lemma SingleWordPipelineClasses()
    ensures StatusClass("New") == "new"
    ensures StatusClass("Contacted") == "contacted"
    ensures StatusClass("Qualified") == "qualified"
    ensures StatusClass("Closed") == "closed"
  {
    NoSpaceInWords();
    LowerNew();
    SingleWordStatusClass("New", "new");
    LowerContacted();
    SingleWordStatusClass("Contacted", "contacted");
    LowerQualified();
    SingleWordStatusClass("Qualified", "qualified");
    LowerClosed();
    SingleWordStatusClass("Closed", "closed");
  }

  lemma NoSpaceInWords()
    ensures ' ' !in "new" && ' ' !in "contacted" && ' ' !in "qualified"
    ensures ' ' !in "closed" && ' ' !in "proposal"
  {
  }

  lemma LowerNew()
    ensures ToLower("New") == "new"
  {
    var r := ToLower("New");
    assert r[0] == 'n';
  }
  lemma LowerContacted()
    ensures ToLower("Contacted") == "contacted"
  {
    var r := ToLower("Contacted");
    assert r[0] == 'c';
  }
  lemma LowerQualified()
    ensures ToLower("Qualified") == "qualified"
  {
    var r := ToLower("Qualified");
    assert r[0] == 'q';
  }
  lemma LowerClosed()
    ensures ToLower("Closed") == "closed"
  {
    var r := ToLower("Closed");
    assert r[0] == 'c';
  }
  /** Two words joined by a space become the two words joined by a dash. */
  lemma ReplaceJoiningSpace(a: string, b: string)
    requires ' ' !in a
    ensures ReplaceFirstSpace(a + " " + b) == a + "-" + b
  {
    var s := a + " " + b;
    assert s[..|a|] == a;
    IndexOfSpaceAt(s, |a|);
    assert s[|a| + 1..] == b;
  }

  /** A two-word status whose first word lower-cases without a space: the
      lower-cased words joined by a dash. */
  lemma TwoWordStatusClass(a: string, b: string)
    requires ' ' !in ToLower(a)
    ensures StatusClass(a + " " + b) == ToLower(a) + "-" + ToLower(b)
  {
    ToLowerAppend(a + " ", b);
    ToLowerAppend(a, " ");
    assert ToLower(" ") == " ";
    ReplaceJoiningSpace(ToLower(a), ToLower(b));
  }

  /** "Proposal Sent" becomes "proposal-sent". */
  lemma ProposalSentClass()
    ensures StatusClass("Proposal Sent") == "proposal-sent"
  {
    NoSpaceInWords();
    LowerProposal();
    TwoWordStatusClass("Proposal", "Sent");
    LowerSent();
    ProposalSentSpelling();
  }

  lemma ProposalSentSpelling()
    ensures "Proposal" + " " + "Sent" == "Proposal Sent"
    ensures "proposal" + "-" + "sent" == "proposal-sent"
  {
    assert ("Proposal" + " " + "Sent")[8] == ' ';
    assert ("proposal" + "-" + "sent")[8] == '-';
  }

  lemma LowerProposal()
    ensures ToLower("Proposal") == "proposal"
  {
    var r := ToLower("Proposal");
    assert r[0] == 'p';
  }
  lemma LowerSent()
    ensures ToLower("Sent") == "sent"
  {
    var r := ToLower("Sent");
    assert r[0] == 's';
  }
}
