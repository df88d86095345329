// The two services judge host names with code of their own: the API before it
// grants a target, the scanner before it dials. They agree.
module Hostnames {
  import opened PinValidation
  import Api = TargetAuthorization

  // The labels of a name are its stretches without a dot; the first one starts
  // the name, the others follow a dot.
  ghost predicate Holds(host: string, k: nat, i: nat, j: nat) {
    && k < |Labels(host)| && Api.LabelAt(host, i, j) && Labels(host)[k] == host[i..j] && (k == 0 <==> i == 0)
  }

  ghost predicate Placed(host: string, k: nat) {
    exists i: nat, j: nat :: Holds(host, k, i, j)
  }

  ghost predicate Listed(host: string, i: nat, j: nat) {
    exists k: nat :: Holds(host, k, i, j)
  }

  ghost predicate Splits(host: string) {
    && (forall k: nat :: k < |Labels(host)| ==> Placed(host, k))
    && (forall i: nat, j: nat :: Api.LabelAt(host, i, j) ==> Listed(host, i, j))
  }

  lemma StretchMoves(host: string, i: nat, j: nat)
    requires host != "" && 1 <= i <= j <= |host| && (i > 1 || host[0] == '.')
    ensures Api.LabelAt(host, i, j) <==> Api.LabelAt(host[1..], i - 1, j - 1)
    ensures host[i..j] == host[1..][i - 1..j - 1]
  {
    var rest := host[1..];
    assert forall k :: 1 <= k < |host| ==> host[k] == rest[k - 1];
    if Api.LabelAt(rest, i - 1, j - 1) {
      forall k | i <= k < j ensures host[k] != '.' {
        assert rest[k - 1] != '.';
      }
    }
  }

  lemma FirstGrows(host: string, j: nat)
    requires host != "" && host[0] != '.' && 1 <= j <= |host|
    ensures Api.LabelAt(host, 0, j) <==> Api.LabelAt(host[1..], 0, j - 1)
    ensures host[0..j] == [host[0]] + host[1..][0..j - 1]
  {
    var rest := host[1..];
    assert forall k :: 1 <= k < |host| ==> host[k] == rest[k - 1];
    if Api.LabelAt(rest, 0, j - 1) {
      forall k | 0 <= k < j ensures host[k] != '.' {
        assert k > 0 ==> rest[k - 1] != '.';
      }
    }
    if Api.LabelAt(host, 0, j) {
      forall k | 0 <= k < j - 1 ensures rest[k] != '.' {
        assert host[k + 1] != '.';
      }
    }
  }

  lemma FirstIsEmpty(host: string, j: nat)
    requires host != "" && host[0] == '.' && Api.LabelAt(host, 0, j)
    ensures j == 0
  {}

  // A label of the rest is the same label of the name, one further on after a
  // dot, one character longer if it is the first one after anything else.
  lemma HoldsOneFurther(host: string, k: nat, i: nat, j: nat)
    requires host != "" && Holds(host[1..], k, i, j)
    ensures host[0] == '.' ==> Holds(host, k + 1, i + 1, j + 1)
    ensures host[0] != '.' ==> Holds(host, k, if k == 0 then 0 else i + 1, j + 1)
  {
    if host[0] != '.' && k == 0 {
      FirstGrows(host, j + 1);
    } else {
      StretchMoves(host, i + 1, j + 1);
    }
  }

  lemma LabelHolds(host: string, k: nat)
    requires host != "" && Splits(host[1..]) && k < |Labels(host)|
    ensures Placed(host, k)
  {
    hide Holds, Labels;
    var rest := host[1..];
    LabelCount(host);
    if host[0] == '.' && k == 0 {
      DotFirst(host);
    } else {
      var before: nat := if host[0] == '.' then k - 1 else k;
      assert Placed(rest, before);
      var i: nat, j: nat :| Holds(rest, before, i, j);
      HoldsOneFurther(host, before, i, j);
    }
  }

  lemma LabelCount(host: string)
    requires host != ""
    ensures |Labels(host)| == |Labels(host[1..])| + if host[0] == '.' then 1 else 0
  {}

  lemma DotFirst(host: string)
    requires host != "" && host[0] == '.'
    ensures Holds(host, 0, 0, 0)
  {}

  lemma StretchHolds(host: string, i: nat, j: nat) returns (k: nat)
    requires host != "" && Splits(host[1..]) && Api.LabelAt(host, i, j)
    ensures Holds(host, k, i, j)
  {
    var rest := host[1..];
    if host[0] == '.' {
      if i == 0 {
        FirstIsEmpty(host, j);
        k := 0;
      } else {
        StretchMoves(host, i, j);
        assert Listed(rest, i - 1, j - 1);
        var before: nat :| Holds(rest, before, i - 1, j - 1);
        k := before + 1;
      }
    } else if i == 0 {
      FirstGrows(host, j);
      assert Listed(rest, 0, j - 1);
      k :| Holds(rest, k, 0, j - 1);
    } else {
      StretchMoves(host, i, j);
      assert Listed(rest, i - 1, j - 1);
      k :| Holds(rest, k, i - 1, j - 1);
    }
  }

  lemma {:induction false} EveryNameSplits(host: string)
    ensures Splits(host)
  {
    if host == "" {
      assert Holds(host, 0, 0, 0);
      forall k: nat | k < |Labels(host)| ensures Placed(host, k) {}
      forall i: nat, j: nat | Api.LabelAt(host, i, j) ensures Listed(host, i, j) {}
    } else {
      EveryNameSplits(host[1..]);
      forall k: nat | k < |Labels(host)| ensures Placed(host, k) {
        LabelHolds(host, k);
      }
      forall i: nat, j: nat | Api.LabelAt(host, i, j) ensures Listed(host, i, j) {
        var k := StretchHolds(host, i, j);
      }
    }
  }

  predicate HasUpper(host: string) {
    exists i :: 0 <= i < |host| && 'A' <= host[i] <= 'Z'
  }

  lemma NoOddCharacters(host: string)
    requires Api.ValidExactHostname(host)
    ensures !HasUpper(host) && !(exists c :: c in " /:\\" && c in host)
  {
    forall p | 0 <= p < |host| ensures host[p] == '.' || Api.LowerLabelRune(host[p]) {
      if host[p] != '.' {
        var i, j := StretchOf(host, p);
      }
    }
  }

  // Every character but a dot stands in a stretch.
  lemma StretchOf(host: string, p: nat) returns (i: nat, j: nat)
    requires p < |host| && host[p] != '.'
    ensures i <= p < j && Api.LabelAt(host, i, j)
  {
    i, j := p, p + 1;
    while i > 0 && host[i - 1] != '.'
      invariant i <= p && forall k :: i <= k <= p ==> host[k] != '.'
    {
      i := i - 1;
    }
    while j < |host| && host[j] != '.'
      invariant p < j <= |host| && forall k :: i <= k < j ==> host[k] != '.'
    {
      j := j + 1;
    }
  }

  lemma ExactIsValid(host: string)
    requires Api.ValidExactHostname(host) && Splits(host)
    ensures ValidHostname(host) && !HasUpper(host)
  {
    hide Labels;
    NoOddCharacters(host);
    forall k | 0 <= k < |Labels(host)| ensures ValidLabel(Labels(host)[k]) {
      assert Placed(host, k);
      var i: nat, j: nat :| Holds(host, k, i, j);
    }
  }

  lemma ValidIsExact(host: string)
    requires ValidHostname(host) && !HasUpper(host) && Splits(host)
    ensures Api.ValidExactHostname(host)
  {
    hide Labels;
    forall i, j | 0 <= i <= |host| && i <= j <= |host| && Api.LabelAt(host, i, j)
      ensures 1 <= j - i <= 63 && host[i] != '-' && host[j - 1] != '-'
      ensures forall k :: i <= k < j ==> Api.LowerLabelRune(host[k])
    {
      assert Listed(host, i, j);
      var k: nat :| Holds(host, k, i, j);
      var piece := Labels(host)[k];
      assert ValidLabel(piece) && piece == host[i..j];
      forall q | i <= q < j ensures Api.LowerLabelRune(host[q]) {
        assert piece[q - i] == host[q];
      }
    }
  }

  // The API takes exactly the names that the scanner takes and that have no
  // upper-case letter; so a name it grants is never malformed to the scanner.
  lemma ServicesAgreeOnNames(host: string)
    ensures Api.ValidExactHostname(host) <==> ValidHostname(host) && !HasUpper(host)
  {
    hide Labels, Api.LabelAt;
    EveryNameSplits(host);
    if Api.ValidExactHostname(host) {
      ExactIsValid(host);
    }
    if ValidHostname(host) && !HasUpper(host) {
      ValidIsExact(host);
    }
  }
}
