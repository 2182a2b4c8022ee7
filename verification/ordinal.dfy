/** The ordinal suffix of a non-negative integer (`Int.th` in the Swift
    extension): a table for 0 to 9, "th" for 10 to 19, and the table entry of
    the last digit from 20 up. Unlike the usual English rule, the teens are
    only special below 20, so 111 is given "st".
 */
module Ordinal {

  /** `Int.suffixes`, indexed 0 to 10. */
  const Suffixes: seq<string> := ["th", "st", "nd", "rd", "th", "th", "th", "th", "th", "th", "th"]

  predicate IsSuffix(s: string) {
    s == "st" || s == "nd" || s == "rd" || s == "th"
  }

  /** `n.th`. A negative `n` indexes the table out of bounds, so the Swift
      code demands `n >= 0` of its callers. */
  function Th(n: int): (r: string)
    requires n >= 0
    ensures IsSuffix(r)
    ensures 10 <= n < 20 ==> r == "th"
    ensures n % 10 == 0 || n % 10 >= 4 ==> r == "th"
  {
    if n < 10 then Suffixes[n]
    else if n < 20 then "th"
    else Suffixes[n % 10]
  }

  /** The suffix the last digit alone calls for, ignoring the teens. */
  function LastDigitSuffix(n: nat): (r: string)
  {
    match n % 10
    case 1 => "st"
    case 2 => "nd"
    case 3 => "rd"
    case _ => "th"
  }

  /** The usual English rule: numbers ending in 11, 12 or 13 take "th",
      every other number takes the suffix of its last digit. */
  function EnglishSuffix(n: nat): (r: string)
  {
    if 11 <= n % 100 <= 13 then "th" else LastDigitSuffix(n)
  }

  /** From 20 up the suffix depends only on the last digit. */
  lemma ThFromTwenty(n: int)
    requires n >= 20
    ensures Th(n) == Th(n % 10)
    ensures Th(n) == LastDigitSuffix(n)
  {
  }

  /** The table agrees with the last-digit rule everywhere except the teens. */
  lemma ThByLastDigit(n: int)
    requires n >= 0
    ensures Th(n) == (if 10 <= n < 20 then "th" else LastDigitSuffix(n))
  {
  }

  /** The last digit of `n` is the last digit of its last two digits. */
  lemma LastDigitOfLastTwo(n: nat)
    ensures n % 10 == (n % 100) % 10
  {
    var a, q := n / 100, n % 100;
    var b, r := q / 10, q % 10;
    assert n == 10 * (10 * a + b) + r;
  }

  /** `Th` follows the English rule exactly except for numbers of 100 or more
      whose last two digits are 11, 12 or 13. */
  lemma ThAgreesWithEnglish(n: int)
    requires n >= 0
    ensures Th(n) == EnglishSuffix(n) <==> !(n >= 100 && 11 <= n % 100 <= 13)
  {
    var last, lastTwo := n % 10, n % 100;
    if n < 20 {
      assert lastTwo == n;
    } else if 11 <= lastTwo <= 13 {
      LastDigitOfLastTwo(n);
      assert last == lastTwo - 10;
      assert Th(n) == Suffixes[last] != "th";
      assert EnglishSuffix(n) == "th";
      assert n >= 100;
    } else {
      ThFromTwenty(n);
      assert EnglishSuffix(n) == LastDigitSuffix(n);
    }
  }

  /** The values the table and its fallbacks give on a few inputs. */
  lemma ThExamples()
    ensures Th(1) == "st" && Th(2) == "nd" && Th(3) == "rd" && Th(4) == "th"
    ensures Th(11) == "th" && Th(12) == "th" && Th(13) == "th"
    ensures Th(21) == "st" && Th(22) == "nd" && Th(23) == "rd" && Th(101) == "st"
    ensures Th(111) == "st" && EnglishSuffix(111) == "th"
  {
  }
}
