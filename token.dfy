/**
 * The subprotocol token check of bare-mux: a subprotocol name given to
 * `createWebSocket` is accepted exactly when every one of its characters is
 * a `tchar` of section 3.2.6 of RFC 7230, as section 4.1 of RFC 6455 asks of
 * every `Sec-WebSocket-Protocol` entry.
 */
module SubprotocolToken {

  /** The accepted characters, in the order the source lists them. */
  const ValidChars: string :=
    "!#$%&'*+-.0123456789ABCDEFGHIJKLMNOPQRSTUVWXYZ^_`abcdefghijklmnopqrstuvwxyz|~"

  /** The fifteen symbols of `tchar` (section 3.2.6 of RFC 7230). */
  const TcharSymbols: string := "!#$%&'*+-.^_`|~"

  /** `tchar` written from the grammar of RFC 7230: the symbols, DIGIT and ALPHA. */
  predicate IsTchar(c: char)
  {
    || c in TcharSymbols
    || ('0' <= c <= '9')
    || ('A' <= c <= 'Z')
    || ('a' <= c <= 'z')
  }

  /** The specification of the check: every character is one of `ValidChars`. */
  predicate Valid(s: string)
  {
    s == [] || (s[0] in ValidChars && Valid(s[1..]))
  }

  /** The per-character scan of the source, returning on the first bad character. */
  method ValidProtocol(protocol: string) returns (ok: bool)
    ensures ok == Valid(protocol)
  {
    var i := 0;
    while i < |protocol|
      invariant 0 <= i <= |protocol|
      invariant Valid(protocol[..i])
    {
      var c := protocol[i];
      ValidConcat(protocol[..i], [c]);
      assert protocol[..i + 1] == protocol[..i] + [c];
      if c !in ValidChars {
        ValidConcat(protocol[..i + 1], protocol[i + 1..]);
        assert protocol[..i + 1] + protocol[i + 1..] == protocol;
        return false;
      }
      i := i + 1;
    }
    assert protocol[..i] == protocol;
    return true;
  }

  /** Validity of a concatenation is validity of both parts. */
  lemma {:induction false} ValidConcat(a: string, b: string)
    ensures Valid(a + b) == (Valid(a) && Valid(b))
    decreases |a|
  {
    if a == [] {
      assert a + b == b;
    } else {
      assert (a + b)[1..] == a[1..] + b;
      ValidConcat(a[1..], b);
    }
  }

  /** Every prefix of a valid name is valid. */
  lemma ValidPrefixClosed(s: string, n: nat)
    requires n <= |s| && Valid(s)
    ensures Valid(s[..n])
  {
    assert s == s[..n] + s[n..];
    ValidConcat(s[..n], s[n..]);
  }

  /** The recursive specification agrees with "every character is accepted". */
  lemma {:induction false} ValidIffEveryChar(s: string)
    ensures Valid(s) <==> forall i :: 0 <= i < |s| ==> s[i] in ValidChars
    decreases |s|
  {
    if s != [] {
      ValidIffEveryChar(s[1..]);
      assert forall i :: 1 <= i < |s| ==> s[i] == s[1..][i - 1];
    }
  }

  /** The empty name is accepted (the loop runs zero times). */
  lemma EmptyIsValid()
    ensures Valid("")
  {
  }

  /** A single character outside the set rejects the whole name, wherever it stands. */
  lemma BadCharRejects(s: string, i: nat)
    requires i < |s| && !IsTchar(s[i])
    ensures !Valid(s)
  {
    ValidIffEveryChar(s);
    TcharMembership(s[i]);
  }

  /** Space, comma, slash, parenthesis, double quote and every non-ASCII
      character are rejected. */
  lemma SeparatorsRejected(c: char)
    requires c in " ,/(\"" || c as int > 0x7E
    ensures !Valid([c])
  {
    BadCharRejects([c], 0);
  }

  const Digits: string := "0123456789"
  const Upper: string := "ABCDEFGHIJKLMNOPQRSTUVWXYZ"
  const Lower: string := "abcdefghijklmnopqrstuvwxyz"

  /* Prefixes of `ValidChars`, cut where its runs, or the halves of its
     letter runs, begin. Each cut removes at most 13 characters. */
  const Prefix75: string := "!#$%&'*+-.0123456789ABCDEFGHIJKLMNOPQRSTUVWXYZ^_`abcdefghijklmnopqrstuvwxyz"
  const Prefix62: string := "!#$%&'*+-.0123456789ABCDEFGHIJKLMNOPQRSTUVWXYZ^_`abcdefghijklm"
  const Prefix49: string := "!#$%&'*+-.0123456789ABCDEFGHIJKLMNOPQRSTUVWXYZ^_`"
  const Prefix46: string := "!#$%&'*+-.0123456789ABCDEFGHIJKLMNOPQRSTUVWXYZ"
  const Prefix33: string := "!#$%&'*+-.0123456789ABCDEFGHIJKLM"
  const Prefix20: string := "!#$%&'*+-.0123456789"

  lemma SplitAt(s: string, k: nat, head: string, tail: string)
    requires k <= |s| && s[..k] == head && s[k..] == tail
    ensures s == head + tail
  {
    assert s == s[..k] + s[k..];
  }

  lemma Cut75() ensures ValidChars == Prefix75 + "|~"
  {
    SplitAt(ValidChars, 75, Prefix75, "|~");
  }

  lemma Cut62() ensures Prefix75 == Prefix62 + "nopqrstuvwxyz"
  {
    SplitAt(Prefix75, 62, Prefix62, "nopqrstuvwxyz");
  }

  lemma Cut49() ensures Prefix62 == Prefix49 + "abcdefghijklm"
  {
    SplitAt(Prefix62, 49, Prefix49, "abcdefghijklm");
  }

  lemma Cut46() ensures Prefix49 == Prefix46 + "^_`"
  {
    SplitAt(Prefix49, 46, Prefix46, "^_`");
  }

  lemma Cut33() ensures Prefix46 == Prefix33 + "NOPQRSTUVWXYZ"
  {
    SplitAt(Prefix46, 33, Prefix33, "NOPQRSTUVWXYZ");
  }

  lemma Cut20() ensures Prefix33 == Prefix20 + "ABCDEFGHIJKLM"
  {
    SplitAt(Prefix33, 20, Prefix20, "ABCDEFGHIJKLM");
  }

  lemma Cut10() ensures Prefix20 == "!#$%&'*+-." + Digits
  {
    SplitAt(Prefix20, 10, "!#$%&'*+-.", Digits);
  }

  lemma Reassociate(a: string, b: string, c1: string, c2: string, d: string, e1: string, e2: string, f: string)
    ensures a + b + c1 + c2 + d + e1 + e2 + f == a + b + (c1 + c2) + d + (e1 + e2) + f
  {
  }

  /** `ValidChars` is the concatenation of its six runs. */
  lemma ValidCharsRuns()
    ensures ValidChars == "!#$%&'*+-." + Digits + Upper + "^_`" + Lower + "|~"
  {
    Cut75(); Cut62(); Cut49(); Cut46(); Cut33(); Cut20(); Cut10();
    assert Upper == "ABCDEFGHIJKLM" + "NOPQRSTUVWXYZ";
    assert Lower == "abcdefghijklm" + "nopqrstuvwxyz";
    Reassociate("!#$%&'*+-.", Digits, "ABCDEFGHIJKLM", "NOPQRSTUVWXYZ", "^_`",
                "abcdefghijklm", "nopqrstuvwxyz", "|~");
  }

  /** A run of consecutive code points starting at `first`. */
  predicate IsRun(run: string, first: char)
  {
    && first as int + |run| < 0xD800
    && forall k :: 0 <= k < |run| ==> run[k] == (first as int + k) as char
  }

  lemma DigitsRun() ensures IsRun(Digits, '0') { }
  lemma UpperRun() ensures IsRun(Upper, 'A') { }
  lemma LowerRun() ensures IsRun(Lower, 'a') { }

  lemma InRun(run: string, first: char, c: char)
    requires IsRun(run, first)
    ensures c in run <==> first as int <= c as int < first as int + |run|
  {
    if first as int <= c as int < first as int + |run| {
      assert run[c as int - first as int] == c;
    }
  }

  /** The accepted set is exactly `tchar` of section 3.2.6 of RFC 7230. */
  lemma TcharMembership(c: char)
    ensures c in ValidChars <==> IsTchar(c)
  {
    ValidCharsRuns();
    DigitsRun();
    UpperRun();
    LowerRun();
    InRun(Digits, '0', c);
    InRun(Upper, 'A', c);
    InRun(Lower, 'a', c);
    assert c in TcharSymbols <==> c in "!#$%&'*+-." || c in "^_`" || c in "|~";
  }

  /** Characters of `ValidChars` are listed in strictly increasing order. */
  predicate StrictlyIncreasing(s: string)
  {
    forall i :: 0 <= i < |s| - 1 ==> s[i] < s[i + 1]
  }

  /** Distinct characters: a strictly increasing string has as many members as letters. */
  lemma {:induction false} IncreasingCard(s: string)
    requires StrictlyIncreasing(s)
    ensures |set c | c in s| == |s|
    decreases |s|
  {
    if s != [] {
      var rest := s[1..];
      assert StrictlyIncreasing(rest) by {
        forall i | 0 <= i < |rest| - 1 ensures rest[i] < rest[i + 1] {
          assert rest[i] == s[i + 1] && rest[i + 1] == s[i + 2];
        }
      }
      IncreasingCard(rest);
      assert forall j :: 0 <= j < |rest| ==> s[0] < rest[j] by {
        forall j | 0 <= j < |rest| ensures s[0] < rest[j] {
          IncreasingFrom(s, 0, j + 1);
        }
      }
      assert (set c | c in s) == {s[0]} + (set c | c in rest);
    }
  }

  lemma {:induction false} IncreasingFrom(s: string, i: nat, j: nat)
    requires StrictlyIncreasing(s) && i < j < |s|
    ensures s[i] < s[j]
    decreases j - i
  {
    if j > i + 1 {
      IncreasingFrom(s, i, j - 1);
    }
  }

  /** 77 distinct characters: 15 symbols, 10 digits and 52 letters. */
  lemma ValidCharsCount()
    ensures |ValidChars| == 77 && |set c | c in ValidChars| == 77
    ensures |TcharSymbols| == 15
  {
    ValidCharsRuns();
    assert StrictlyIncreasing(ValidChars) by {
      DigitsRun();
      UpperRun();
      LowerRun();
      RunIncreasing(Digits, '0');
      RunIncreasing(Upper, 'A');
      RunIncreasing(Lower, 'a');
      var p1, p4, p6 := "!#$%&'*+-.", "^_`", "|~";
      assert StrictlyIncreasing(p1) && StrictlyIncreasing(p4) && StrictlyIncreasing(p6);
      ConcatIncreasing(p1, Digits);
      ConcatIncreasing(p1 + Digits, Upper);
      ConcatIncreasing(p1 + Digits + Upper, p4);
      ConcatIncreasing(p1 + Digits + Upper + p4, Lower);
      ConcatIncreasing(p1 + Digits + Upper + p4 + Lower, p6);
    }
    IncreasingCard(ValidChars);
  }

  lemma RunIncreasing(run: string, first: char)
    requires IsRun(run, first)
    ensures StrictlyIncreasing(run)
  {
  }

  lemma ConcatIncreasing(a: string, b: string)
    requires StrictlyIncreasing(a) && StrictlyIncreasing(b)
    requires a != [] && b != [] && a[|a| - 1] < b[0]
    ensures StrictlyIncreasing(a + b)
  {
    var s := a + b;
    forall i | 0 <= i < |s| - 1 ensures s[i] < s[i + 1] {
      if i + 1 < |a| {
        assert s[i] == a[i] && s[i + 1] == a[i + 1];
      } else if i + 1 == |a| {
        assert s[i] == a[|a| - 1] && s[i + 1] == b[0];
      } else {
        assert s[i] == b[i - |a|] && s[i + 1] == b[i + 1 - |a|];
      }
    }
  }
}
