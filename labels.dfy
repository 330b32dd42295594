/** The fixed table from class index to gesture text held by the server's
    hand recogniser (`labels_mapping`). */
module Labels {

  import opened Wrappers

  /** Looking a key up in the table: the 63 entries of `labels_mapping` in
      `Server/server_recognition.py`, digits, then upper-case letters, a
      space, then lower-case letters; `None` for a key the dictionary does
      not hold. The table holds
      exactly the keys 0..62, and each entry is the one-character string that
      the arithmetic rule `RuleChar` gives for its key. */
  function LabelsMapping(key: int): (r: Option<string>)
    ensures r.Some? <==> 0 <= key < ClassCount
    ensures r.Some? ==> 0 <= key < ClassCount && r.value == [RuleChar(key)]
  {
    match key
    case 0 => Some("0") case 1 => Some("1") case 2 => Some("2") case 3 => Some("3") case 4 => Some("4") case 5 => Some("5") case 6 => Some("6") case 7 => Some("7") case 8 => Some("8") case 9 => Some("9")
    case 10 => Some("A") case 11 => Some("B") case 12 => Some("C") case 13 => Some("D") case 14 => Some("E") case 15 => Some("F") case 16 => Some("G") case 17 => Some("H") case 18 => Some("I") case 19 => Some("J")
    case 20 => Some("K") case 21 => Some("L") case 22 => Some("M") case 23 => Some("N") case 24 => Some("O") case 25 => Some("P") case 26 => Some("Q") case 27 => Some("R") case 28 => Some("S") case 29 => Some("T")
    case 30 => Some("U") case 31 => Some("V") case 32 => Some("W") case 33 => Some("X") case 34 => Some("Y") case 35 => Some("Z") case 36 => Some(" ")
    case 37 => Some("a") case 38 => Some("b") case 39 => Some("c") case 40 => Some("d") case 41 => Some("e") case 42 => Some("f") case 43 => Some("g") case 44 => Some("h") case 45 => Some("i") case 46 => Some("j")
    case 47 => Some("k") case 48 => Some("l") case 49 => Some("m") case 50 => Some("n") case 51 => Some("o") case 52 => Some("p") case 53 => Some("q") case 54 => Some("r") case 55 => Some("s") case 56 => Some("t")
    case 57 => Some("u") case 58 => Some("v") case 59 => Some("w") case 60 => Some("x") case 61 => Some("y") case 62 => Some("z")
    case _ => None
  }

  /** Number of classes the table covers. */
  const ClassCount: nat := 63

  /** The characters a table entry may be: a digit, a letter of either case,
      or a space. */
  predicate InAlphabet(c: char)
  {
    ('0' <= c <= '9') || ('A' <= c <= 'Z') || c == ' ' || ('a' <= c <= 'z')
  }

  /** The arithmetic rule the table follows, as an independent reference:
      0..9 are the digits, 10..35 count up from 'A', 36 is a space and
      37..62 count up from 'a'. */
  function RuleChar(i: int): (c: char)
    requires 0 <= i < ClassCount
    ensures InAlphabet(c)
  {
    if i < 10 then ('0' as int + i) as char
    else if i < 36 then ('A' as int + (i - 10)) as char
    else if i == 36 then ' '
    else ('a' as int + (i - 37)) as char
  }

  /** The inverse of the rule: the class index whose entry is `c`. */
  function LabelIndex(c: char): (i: int)
    requires InAlphabet(c)
    ensures 0 <= i < ClassCount && RuleChar(i) == c
  {
    if '0' <= c <= '9' then c as int - '0' as int
    else if 'A' <= c <= 'Z' then c as int - 'A' as int + 10
    else if c == ' ' then 36
    else c as int - 'a' as int + 37
  }

  /** Reading the rule back through its inverse gives the index again, so the
      rule sends distinct indices to distinct characters. */
  lemma LabelIndexOfRuleChar(i: int)
    requires 0 <= i < ClassCount
    ensures LabelIndex(RuleChar(i)) == i
  {
  }

  /** No two keys share a label. */
  lemma LabelsInjective(i: int, j: int)
    requires LabelsMapping(i).Some? && LabelsMapping(j).Some?
    requires LabelsMapping(i) == LabelsMapping(j)
    ensures i == j
  {
  }

  /** Every value of the table is a one-character string over the alphabet. */
  lemma LabelsInAlphabet(key: int)
    requires LabelsMapping(key).Some?
    ensures |LabelsMapping(key).value| == 1 && InAlphabet(LabelsMapping(key).value[0])
  {
  }

  /** Conversely, every one-character string over the alphabet is a value of
      the table, held at the key `LabelIndex` gives. */
  lemma AlphabetInLabels(c: char)
    requires InAlphabet(c)
    ensures LabelsMapping(LabelIndex(c)) == Some([c])
  {
  }

  /** The literal "closed" that the recogniser reports for a closed hand is
      not a table value, so the two kinds of label cannot be confused. */
  lemma ClosedIsNotALabel(key: int)
    ensures LabelsMapping(key) != Some("closed")
  {
  }
}
