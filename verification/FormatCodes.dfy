/**
 Formats that are kept as a code of bits per value: what the writers put into a header (bos2et.c,
 boswrite.c) is what the reader of a flat record takes it for (etbosio.c).
 */
module FormatCodes {
  import opened HeaderTexts
  import opened EtBanks
  import opened Creating

  /** "B32 ", "B16 " and "B08 ", and four blanks for a name without a format. */
  lemma CodeWords()
    ensures TextWords(FormatChars(Bits(1))) == [0x2032_3342] && TextWords(FormatChars(Bits(2))) == [0x2036_3142]
    ensures TextWords(FormatChars(Bits(3))) == [0x2038_3042] && TextWords(FormatChars(NoFormat)) == [0x2020_2020]
  {
  }

  /** The text that is read back. */
  lemma CodeText(code: int, t: seq<int>)
    requires 1 <= code <= 3 && t == FormatText(TextWords(FormatChars(Bits(code))))
    ensures |t| == 3 && t[0] == 66
    ensures if code == 1 then t[1] == 51 && t[2] == 50 else if code == 2 then t[1] == 49 && t[2] == 54
            else t[1] == 48 && t[2] == 56
  {
    hide FormatText;
    var c := FormatChars(Bits(code));
    assert TextWords(c) == TextWords(c[..3]);
    TextBack(c[..3]);
  }

  /** A bank takes as many words in a flat record as in the array. */
  lemma SameWords(code: int, ncol: nat, nrow: nat)
    requires 1 <= code <= 3
    ensures var t := FormatText(TextWords(FormatChars(Bits(code))));
            && Lfmt(t) == (if code == 1 then 1 else if code == 2 then 2 else 4)
            && BankWords(ncol, nrow, Lfmt(t)) == DataWords(code, ncol, nrow)
            && (forall nd :: FewestWords(t, ncol * nrow, nd) <==> Packs(code, ncol * nrow, nd))
  {
    hide FormatText, TextWords, FormatChars;
    var t := FormatText(TextWords(FormatChars(Bits(code))));
    CodeText(code, t);
    LfmtOf(t);
    WordsFor(t, ncol, nrow);
    Packed(code, ncol, nrow, DataWords(code, ncol, nrow));
    Counted(t, code, ncol * nrow);
  }

  lemma LfmtOf(t: seq<int>)
    requires |t| == 3 && t[0] == 66
    ensures t[1] == 51 && t[2] == 50 ==> Lfmt(t) == 1
    ensures t[1] == 49 && t[2] == 54 ==> Lfmt(t) == 2
    ensures t[1] == 48 && t[2] == 56 ==> Lfmt(t) == 4
  {
    assert t[..2][1] == t[1] && t[..3] == t;
  }

  lemma Counted(t: seq<int>, code: int, p: nat)
    requires |t| == 3 && t[0] == 66 && 1 <= code <= 3
    requires if code == 1 then t[1] == 51 && t[2] == 50 else if code == 2 then t[1] == 49 && t[2] == 54
             else t[1] == 48 && t[2] == 56
    ensures forall nd :: FewestWords(t, p, nd) <==> Packs(code, p, nd)
  {
  }
}
