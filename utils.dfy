/**
 * `getKeyString` (src/lib/utils.ts): turns a camelCase option key such as
 * "zoomIn" into the label "Zoom In" shown next to its switch.
 *
 * The source folds over the characters with their index and pushes one
 * piece per character onto an accumulator, then joins the pieces.  The model
 * keeps that shape: `Piece` is what one step pushes, `Labels` is the fold
 * (appending a piece is `push`, concatenation is `join`).
 * Case tests are ASCII: a character counts as "lower case" in the source's
 * sense (`cur === cur.toLowerCase()`) exactly when it is not 'A'..'Z'.
 */
module Utils {

  predicate IsUpper(c: char) { 'A' <= c <= 'Z' }

  predicate IsLower(c: char) { 'a' <= c <= 'z' }

  function ToUpper(c: char): (u: char)
    ensures IsLower(c) ==> IsUpper(u) && u as int == c as int - 32
    ensures !IsLower(c) ==> u == c
  {
    if IsLower(c) then (c as int - 32) as char else c
  }

  function ToLower(c: char): (l: char)
    ensures IsUpper(c) ==> IsLower(l) && l as int == c as int + 32
    ensures !IsUpper(c) ==> l == c
  {
    if IsUpper(c) then (c as int + 32) as char else c
  }

  /** The number of upper-case letters in `s`. */
  function CountUpper(s: string): nat
  {
    if s == [] then 0 else (if IsUpper(s[0]) then 1 else 0) + CountUpper(s[1..])
  }

  /** What one step of the fold pushes for character `c` at index `idx`. */
  function Piece(c: char, idx: nat): string
  {
    if !IsUpper(c) then
      (if idx == 0 then [ToUpper(c)] else [c])
    else
      [' ', c]
  }

  /** The fold over `key`, whose first character sits at index `idx`. */
  function Labels(key: string, idx: nat): string
    decreases |key|
  {
    if key == [] then [] else Piece(key[0], idx) + Labels(key[1..], idx + 1)
  }

  /** The label for an option key. */
  function GetKeyString(key: string): (r: string)
    ensures |r| == |key| + CountUpper(key)
    ensures r == [] <==> key == []
    ensures key != [] && IsLower(key[0]) ==> r[0] == ToUpper(key[0])
    ensures key != [] && IsUpper(key[0]) ==> r[..2] == [' ', key[0]]
    ensures key != [] && !IsLower(key[0]) && !IsUpper(key[0]) ==> r[0] == key[0]
  {
    LabelsLength(key, 0);
    Labels(key, 0)
  }

  lemma {:induction false} LabelsLength(s: string, idx: nat)
    ensures |Labels(s, idx)| == |s| + CountUpper(s)
    decreases |s|
  {
    if s != [] {
      LabelsLength(s[1..], idx + 1);
    }
  }

  /** The character that input character `c` at index `idx` becomes. */
  function Emitted(c: char, idx: nat): char
  {
    if idx == 0 then ToUpper(c) else c
  }

  /**
   * Where each input character lands: character k of the key appears at
   * output position k + (upper-case letters among key[..k+1]); it is
   * upper-cased when it is the first character, copied otherwise, and an
   * upper-case letter is preceded by an inserted space.
   */
  lemma {:induction false} LabelsAt(s: string, idx: nat, k: nat)
    requires k < |s|
    ensures |Labels(s, idx)| == |s| + CountUpper(s)
    ensures k + CountUpper(s[..k + 1]) < |Labels(s, idx)|
    ensures Labels(s, idx)[k + CountUpper(s[..k + 1])] == Emitted(s[k], idx + k)
    ensures IsUpper(s[k]) ==> Labels(s, idx)[k + CountUpper(s[..k + 1]) - 1] == ' '
    decreases k
  {
    LabelsLength(s, idx);
    var rest := Labels(s[1..], idx + 1);
    assert Labels(s, idx) == Piece(s[0], idx) + rest;
    assert s[..k + 1][0] == s[0];
    assert s[..k + 1][1..] == s[1..][..k];
    if k > 0 {
      LabelsAt(s[1..], idx + 1, k - 1);
      assert s[1..][k - 1] == s[k];
    }
  }

  /** Character-wise form of `LabelsAt` for the label itself. */
  lemma GetKeyStringAt(key: string, k: nat)
    requires k < |key|
    ensures k + CountUpper(key[..k + 1]) < |GetKeyString(key)|
    ensures GetKeyString(key)[k + CountUpper(key[..k + 1])] == (if k == 0 then ToUpper(key[k]) else key[k])
    ensures IsUpper(key[k]) ==> GetKeyString(key)[k + CountUpper(key[..k + 1]) - 1] == ' '
  {
    LabelsAt(key, 0, k);
  }

  /**
   * The inverse of the label: drop every space that the label inserted in
   * front of an upper-case letter and give the first character its lower
   * case back when the label upper-cased it.
   */
  function Unlabel(r: string): string
  {
    if r != [] && IsUpper(r[0]) then [ToLower(r[0])] + Unspace(r[1..]) else Unspace(r)
  }

  /** Drops each space that is followed by an upper-case letter. */
  function Unspace(t: string): string
    decreases |t|
  {
    if t == [] then []
    else if |t| >= 2 && t[0] == ' ' && IsUpper(t[1]) then [t[1]] + Unspace(t[2..])
    else [t[0]] + Unspace(t[1..])
  }

  /** Past index 0 the fold never emits an upper-case letter first. */
  lemma LabelsHead(s: string, idx: nat)
    requires idx >= 1 && s != []
    ensures Labels(s, idx) != [] && !IsUpper(Labels(s, idx)[0])
  {
    assert Labels(s, idx) == Piece(s[0], idx) + Labels(s[1..], idx + 1);
  }

  /** One step of `Unspace` undoes one step of the fold (past index 0). */
  lemma UnspaceStep(s: string, idx: nat)
    requires s != [] && (idx >= 1 || !IsLower(s[0]))
    ensures Unspace(Labels(s, idx)) == [s[0]] + Unspace(Labels(s[1..], idx + 1))
  {
    var rest := Labels(s[1..], idx + 1);
    assert Labels(s, idx) == Piece(s[0], idx) + rest;
    if IsUpper(s[0]) {
      assert (Piece(s[0], idx) + rest)[2..] == rest;
    } else {
      assert Piece(s[0], idx) == [s[0]];
      if rest != [] {
        LabelsHead(s[1..], idx + 1);
      }
      assert ([s[0]] + rest)[1..] == rest;
    }
  }

  lemma {:induction false} UnspaceLabels(s: string, idx: nat)
    requires idx >= 1
    ensures Unspace(Labels(s, idx)) == s
    decreases |s|
  {
    if s != [] {
      UnspaceStep(s, idx);
      UnspaceLabels(s[1..], idx + 1);
    }
  }

  /** Round trip: the label determines the key it was made from. */
  lemma {:induction false} UnlabelGetKeyString(key: string)
    ensures Unlabel(GetKeyString(key)) == key
  {
    if key == [] {
      assert Labels(key, 0) == [];
    } else {
      var rest := Labels(key[1..], 1);
      assert Labels(key, 0) == Piece(key[0], 0) + rest;
      UnspaceLabels(key[1..], 1);
      if IsLower(key[0]) {
        assert (Piece(key[0], 0) + rest)[1..] == rest;
      } else {
        UnspaceStep(key, 0);
      }
    }
  }

  /** Two different keys never get the same label. */
  lemma GetKeyStringInjective(a: string, b: string)
    requires GetKeyString(a) == GetKeyString(b)
    ensures a == b
  {
    UnlabelGetKeyString(a);
    UnlabelGetKeyString(b);
  }

  /** The labels of the three control-panel options. */
  lemma OptionLabels()
    ensures GetKeyString("boost") == "Boost"
    ensures GetKeyString("zoomIn") == "Zoom In"
    ensures GetKeyString("guide") == "Guide"
  {
  }
}
