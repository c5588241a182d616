/** The two length checks of ListDataExecutor, as specifications: paramCheck
    (the list parameters of one formula have one length, which becomes the
    formula's size) and checkParamSize (the formulas of a group, with their
    start and stop conditions, have one length, or in fixed-index mode reach
    past the index). */
module LengthChecks {
  import opened Base
  import opened Text
  import opened Values
  import opened IndexedFormula

  /** The names among ns that the context binds, each with the size its
      config records, in order. */
  function Registered(ns: seq<string>, store: map<string, Value>): (r: seq<(string, int)>)
    ensures |r| <= |ns|
  {
    if |ns| == 0 then []
    else
      var last := ns[|ns| - 1];
      Registered(ns[..|ns| - 1], store) +
        (if last in store then [(last, ConfigOf(store[last]).size)] else [])
  }

  /** Every bound name is among the registered ones, with its size. */
  lemma {:induction false} RegisteredHas(ns: seq<string>, store: map<string, Value>, k: nat)
    requires k < |ns| && ns[k] in store
    ensures (ns[k], ConfigOf(store[ns[k]]).size) in Registered(ns, store)
    decreases |ns|
  {
    if k < |ns| - 1 {
      assert ns[..|ns| - 1][k] == ns[k];
      RegisteredHas(ns[..|ns| - 1], store, k);
    }
  }

  /** Every registered pair is a bound name with its size. */
  lemma {:induction false} RegisteredBound(ns: seq<string>, store: map<string, Value>)
    ensures forall j | 0 <= j < |Registered(ns, store)| ::
      Registered(ns, store)[j].0 in store && Registered(ns, store)[j].0 in ns &&
      Registered(ns, store)[j].1 == ConfigOf(store[Registered(ns, store)[j].0]).size
    decreases |ns|
  {
    if |ns| > 0 {
      RegisteredBound(ns[..|ns| - 1], store);
      assert forall x | x in ns[..|ns| - 1] :: x in ns;
    }
  }

  /** The first position whose size differs from the one before, or |s|. */
  function FirstMismatch(s: seq<(string, int)>): (k: nat)
    ensures k <= |s|
    ensures k < |s| ==> k >= 1 && s[k].1 != s[k - 1].1
    ensures forall j | 1 <= j < k :: s[j].1 == s[j - 1].1
  {
    if |s| <= 1 then |s|
    else
      var k := FirstMismatch(s[..|s| - 1]);
      if k < |s| - 1 then k
      else if s[|s| - 1].1 != s[|s| - 2].1 then |s| - 1
      else |s|
  }

  /** paramCheck, with the formula's names as scanned. A formula without
      names is refused; a single name is a plain assignment of size -1.
      Otherwise the bound parameters (after the result name) must have one
      length unless the index is fixed, and the formula's size is the length
      of the last bound one, or the configured total, or -1. */
  function ParamChecked(f: string, names: seq<string>, store: map<string, Value>,
                        demise: bool, paramTotalSize: Option<int>): (r: Result<Message>)
    ensures r.Ok? ==> r.value.formula == f && r.value.names == names
    ensures |names| == 0 <==> r == Err(NoIndexedParameter(f))
    ensures |names| == 1 ==> r == Ok(Message(f, names, -1, false))
    ensures |names| >= 2 && r.Ok? ==> r.value.nullJudge == Contains(f, "null")
  {
    if |names| == 0 then Err(NoIndexedParameter(f))
    else if |names| == 1 then Ok(Message(f, names, -1, false))
    else
      var regs := Registered(names[1..], store);
      var k := FirstMismatch(regs);
      if !demise && k < |regs| then
        Err(ParamLengthMismatch(f, regs[k - 1].0, regs[k].0, regs[k - 1].1, regs[k].1))
      else if |regs| == 0 then
        Ok(Message(f, names, if paramTotalSize.Some? then paramTotalSize.value else -1, Contains(f, "null")))
      else
        Ok(Message(f, names, regs[|regs| - 1].1, Contains(f, "null")))
  }

  /** Sizes with no mismatch between neighbours are all the last one. */
  lemma {:induction false} NoMismatchAllEqual(s: seq<(string, int)>)
    requires |s| > 0 && FirstMismatch(s) == |s|
    ensures forall j | 0 <= j < |s| :: s[j].1 == s[|s| - 1].1
  {
    var j := |s| - 1;
    while j > 0
      invariant 0 <= j <= |s| - 1
      invariant forall i | j <= i < |s| :: s[i].1 == s[|s| - 1].1
    {
      assert s[j].1 == s[j - 1].1;
      j := j - 1;
    }
  }

  /** Outside fixed-index mode, paramCheck accepts a formula of two or more
      names exactly when every bound parameter after the result name has the
      same length; that length is then the formula's size. */
  lemma ParamCheckAgreement(f: string, names: seq<string>, store: map<string, Value>, paramTotalSize: Option<int>)
    requires |names| >= 2
    ensures var r := ParamChecked(f, names, store, false, paramTotalSize);
      r.Ok? <==> forall i, j | 1 <= i < |names| && 1 <= j < |names| && names[i] in store && names[j] in store ::
                   ConfigOf(store[names[i]]).size == ConfigOf(store[names[j]]).size
    ensures var r := ParamChecked(f, names, store, false, paramTotalSize);
      r.Ok? ==> forall i | 1 <= i < |names| && names[i] in store :: ConfigOf(store[names[i]]).size == r.value.size
  {
    var regs := Registered(names[1..], store);
    var r := ParamChecked(f, names, store, false, paramTotalSize);
    forall i | 1 <= i < |names| && names[i] in store
      ensures (names[i], ConfigOf(store[names[i]]).size) in regs
    {
      assert names[1..][i - 1] == names[i];
      RegisteredHas(names[1..], store, i - 1);
    }
    if FirstMismatch(regs) == |regs| {
      if |regs| > 0 {
        NoMismatchAllEqual(regs);
      }
    } else {
      var k := FirstMismatch(regs);
      RegisteredBound(names[1..], store);
      var a := regs[k - 1].0;
      var b := regs[k].0;
      assert a in names[1..] && b in names[1..];
      var i :| 0 <= i < |names[1..]| && names[1..][i] == a;
      var j :| 0 <= j < |names[1..]| && names[1..][j] == b;
      assert names[i + 1] == a && names[j + 1] == b;
    }
  }

  /** The message whose size a message is compared with: the one before it,
      or itself for the first. */
  function Mark(k: nat): nat
  {
    if k == 0 then 0 else k - 1
  }

  /** The check of one message: in fixed-index mode the compared length must
      reach past the index unless the message is a null check; otherwise the
      two lengths must be equal. */
  predicate Fault(s: seq<Message>, k: nat, currentIndex: Option<nat>)
    requires k < |s|
  {
    match currentIndex
    case Some(ci) => s[Mark(k)].size <= ci && !s[k].nullJudge
    case None => s[Mark(k)].size != s[k].size
  }

  /** The first message that fails its check, or |s|. */
  function FirstFault(s: seq<Message>, currentIndex: Option<nat>): (k: nat)
    ensures k <= |s|
    ensures k < |s| ==> Fault(s, k, currentIndex)
    ensures forall j | 0 <= j < k :: !Fault(s, j, currentIndex)
  {
    if |s| == 0 then 0
    else
      var k := FirstFault(s[..|s| - 1], currentIndex);
      assert forall j | 0 <= j < |s| - 1 :: Fault(s[..|s| - 1], j, currentIndex) == Fault(s, j, currentIndex);
      if k < |s| - 1 then k
      else if Fault(s, |s| - 1, currentIndex) then |s| - 1
      else |s|
  }

  /** The messages that take part: present, and of known size. */
  function Sized(checklist: seq<Option<Message>>): (s: seq<Message>)
    ensures forall k | 0 <= k < |s| :: s[k].size != -1 && Some(s[k]) in checklist
  {
    if |checklist| == 0 then []
    else
      var last := checklist[|checklist| - 1];
      var s := Sized(checklist[..|checklist| - 1]);
      assert forall m | m in checklist[..|checklist| - 1] :: m in checklist;
      s + (if last.Some? && last.value.size != -1 then [last.value] else [])
  }

  /** The texts of the messages present. */
  function PresentFormulas(checklist: seq<Option<Message>>): seq<string>
  {
    if |checklist| == 0 then []
    else
      var last := checklist[|checklist| - 1];
      PresentFormulas(checklist[..|checklist| - 1]) + (if last.Some? then [last.value.formula] else [])
  }

  /** checkParamSize: the first failing message is reported; with no sized
      message and no configured total the length cannot be found. */
  function CheckedSizes(checklist: seq<Option<Message>>, currentIndex: Option<nat>, paramTotalSize: Option<int>): (r: Result<()>)
    ensures r.Ok? ==> |Sized(checklist)| > 0 || paramTotalSize.Some?
  {
    var s := Sized(checklist);
    var k := FirstFault(s, currentIndex);
    if k < |s| then
      if currentIndex.Some? then Err(IndexBeyondLength(s[Mark(k)].formula, currentIndex.value))
      else Err(FormulaLengthMismatch(s[Mark(k)].formula, s[k].formula, s[Mark(k)].size, s[k].size))
    else if |s| == 0 && paramTotalSize.None? then Err(UnresolvableLength(PresentFormulas(checklist)))
    else Ok(())
  }

  /** Outside fixed-index mode the check passes exactly when every sized
      message has one length (and some length is known). */
  lemma CheckedSizesAgreement(checklist: seq<Option<Message>>, paramTotalSize: Option<int>)
    ensures var s := Sized(checklist);
      CheckedSizes(checklist, None, paramTotalSize).Ok? <==>
        (|s| > 0 || paramTotalSize.Some?) && forall i, j | 0 <= i < |s| && 0 <= j < |s| :: s[i].size == s[j].size
  {
    var s := Sized(checklist);
    var k := FirstFault(s, None);
    var r := CheckedSizes(checklist, None, paramTotalSize);
    if k < |s| {
      assert r.Err?;
      assert Fault(s, k, None);
      assert s[Mark(k)].size != s[k].size;
    } else if |s| > 0 {
      NoFaultAllEqual(s);
      assert r.Ok?;
    }
  }

  /** Sizes none of which differs from the one before are all the last one. */
  lemma NoFaultAllEqual(s: seq<Message>)
    requires |s| > 0 && FirstFault(s, None) == |s|
    ensures forall i | 0 <= i < |s| :: s[i].size == s[|s| - 1].size
  {
    forall i | 0 <= i < |s|
      ensures s[i].size == s[|s| - 1].size
    {
      SizeFrom(s, i);
    }
  }

  /** From i on every size is the last one. */
  lemma {:induction false} SizeFrom(s: seq<Message>, i: nat)
    requires i < |s| && FirstFault(s, None) == |s|
    ensures s[i].size == s[|s| - 1].size
    decreases |s| - i
  {
    if i < |s| - 1 {
      SizeFrom(s, i + 1);
      NoFaultAt(s, i + 1);
    }
  }

  /** A message before the first fault has the size of the one before it. */
  lemma NoFaultAt(s: seq<Message>, j: nat)
    requires 0 < j < |s| && FirstFault(s, None) == |s|
    ensures s[j - 1].size == s[j].size
  {
    assert !Fault(s, j, None);
  }

  /** In fixed-index mode a passing check means: the first sized message
      reaches past the index unless it is a null check, and so does each
      one followed by a message that is not a null check. */
  lemma CheckedSizesFixedIndex(checklist: seq<Option<Message>>, ci: nat, paramTotalSize: Option<int>)
    requires CheckedSizes(checklist, Some(ci), paramTotalSize).Ok?
    ensures var s := Sized(checklist);
      (|s| > 0 ==> s[0].size > ci || s[0].nullJudge) &&
      forall k | 0 <= k < |s| - 1 :: s[k].size > ci || s[k + 1].nullJudge
  {
    var s := Sized(checklist);
    if |s| > 0 {
      assert !Fault(s, 0, Some(ci));
    }
    forall k | 0 <= k < |s| - 1
      ensures s[k].size > ci || s[k + 1].nullJudge
    {
      assert !Fault(s, k + 1, Some(ci));
    }
  }

  /** The names registered before position n come first among all of them. */
  lemma {:induction false} RegisteredPrefix(ns: seq<string>, store: map<string, Value>, n: nat)
    requires n <= |ns|
    ensures |Registered(ns[..n], store)| <= |Registered(ns, store)|
    ensures Registered(ns, store)[..|Registered(ns[..n], store)|] == Registered(ns[..n], store)
    decreases |ns|
  {
    if n < |ns| {
      var init := ns[..|ns| - 1];
      assert init[..n] == ns[..n];
      RegisteredPrefix(init, store, n);
    } else {
      assert ns[..n] == ns;
    }
  }

  /** A mismatch among the first n is the first mismatch of the whole. */
  lemma FirstMismatchPrefix(s: seq<(string, int)>, n: nat)
    requires n <= |s| && FirstMismatch(s[..n]) < n
    ensures FirstMismatch(s) == FirstMismatch(s[..n])
  {
    var k := FirstMismatch(s[..n]);
    assert forall j | 0 <= j < n :: s[..n][j] == s[j];
  }

  /** The sized messages among the first n come first among all of them. */
  lemma {:induction false} SizedPrefix(checklist: seq<Option<Message>>, n: nat)
    requires n <= |checklist|
    ensures |Sized(checklist[..n])| <= |Sized(checklist)|
    ensures Sized(checklist)[..|Sized(checklist[..n])|] == Sized(checklist[..n])
    decreases |checklist|
  {
    if n < |checklist| {
      var init := checklist[..|checklist| - 1];
      assert init[..n] == checklist[..n];
      SizedPrefix(init, n);
    } else {
      assert checklist[..n] == checklist;
    }
  }

  /** A fault among the first n is the first fault of the whole. */
  lemma FirstFaultPrefix(s: seq<Message>, n: nat, currentIndex: Option<nat>)
    requires n <= |s| && FirstFault(s[..n], currentIndex) < n
    ensures FirstFault(s, currentIndex) == FirstFault(s[..n], currentIndex)
  {
    var k := FirstFault(s[..n], currentIndex);
    assert forall j | 0 <= j < n :: Fault(s[..n], j, currentIndex) == Fault(s, j, currentIndex);
  }

  /** One more name: it is registered after the others when bound. */
  lemma RegisteredStep(ns: seq<string>, store: map<string, Value>, n: nat)
    requires n < |ns|
    ensures Registered(ns[..n + 1], store) ==
      Registered(ns[..n], store) + (if ns[n] in store then [(ns[n], ConfigOf(store[ns[n]]).size)] else [])
  {
    assert ns[..n + 1][..n] == ns[..n];
  }

  /** One more size after a run of equal ones: a mismatch exactly when it
      differs from the last. */
  lemma FirstMismatchStep(s: seq<(string, int)>, x: (string, int))
    requires FirstMismatch(s) == |s|
    ensures FirstMismatch(s + [x]) == if |s| > 0 && x.1 != s[|s| - 1].1 then |s| else |s| + 1
  {
    assert (s + [x])[..|s|] == s;
  }

  /** A mismatch found among the names before n + 1 is the one paramCheck reports. */
  lemma MismatchReported(ns: seq<string>, store: map<string, Value>, n: nat)
    requires n <= |ns|
    requires FirstMismatch(Registered(ns[..n], store)) < |Registered(ns[..n], store)|
    ensures var part := Registered(ns[..n], store);
      var k := FirstMismatch(part);
      |part| <= |Registered(ns, store)| && FirstMismatch(Registered(ns, store)) == k &&
      Registered(ns, store)[k - 1] == part[k - 1] && Registered(ns, store)[k] == part[k]
  {
    var part := Registered(ns[..n], store);
    RegisteredPrefix(ns, store, n);
    var all := Registered(ns, store);
    assert all[..|part|] == part;
    FirstMismatchPrefix(all, |part|);
    var k := FirstMismatch(part);
    assert all[k - 1] == all[..|part|][k - 1] && all[k] == all[..|part|][k];
  }

  /** One more entry of the check list: it takes part when present and sized. */
  lemma SizedStep(checklist: seq<Option<Message>>, n: nat)
    requires n < |checklist|
    ensures Sized(checklist[..n + 1]) ==
      Sized(checklist[..n]) + (if checklist[n].Some? && checklist[n].value.size != -1 then [checklist[n].value] else [])
  {
    assert checklist[..n + 1][..n] == checklist[..n];
  }

  /** One more message after messages that all pass: a fault exactly when it fails its own check. */
  lemma FirstFaultStep(s: seq<Message>, m: Message, currentIndex: Option<nat>)
    requires FirstFault(s, currentIndex) == |s|
    ensures FirstFault(s + [m], currentIndex) == if Fault(s + [m], |s|, currentIndex) then |s| else |s| + 1
  {
    assert (s + [m])[..|s|] == s;
  }

  /** A fault found among the entries before n is the one checkParamSize reports. */
  lemma FaultReported(checklist: seq<Option<Message>>, n: nat, currentIndex: Option<nat>)
    requires n <= |checklist|
    requires FirstFault(Sized(checklist[..n]), currentIndex) < |Sized(checklist[..n])|
    ensures var part := Sized(checklist[..n]);
      var k := FirstFault(part, currentIndex);
      |part| <= |Sized(checklist)| && FirstFault(Sized(checklist), currentIndex) == k &&
      Sized(checklist)[Mark(k)] == part[Mark(k)] && Sized(checklist)[k] == part[k]
  {
    var part := Sized(checklist[..n]);
    SizedPrefix(checklist, n);
    var all := Sized(checklist);
    assert all[..|part|] == part;
    FirstFaultPrefix(all, |part|, currentIndex);
    var k := FirstFault(part, currentIndex);
    assert all[Mark(k)] == all[..|part|][Mark(k)] && all[k] == all[..|part|][k];
  }

  /** paramCheck's loop after the names before j: the last bound name and
      its size are the mark, and no two neighbours differ unless the index
      is fixed. */
  predicate ScanState(ns: seq<string>, store: map<string, Value>, j: nat, demise: bool,
                      markSize: Option<int>, markName: string)
    requires j <= |ns|
  {
    var regs := Registered(ns[..j], store);
    (markSize.None? <==> |regs| == 0) &&
    (|regs| > 0 ==> markSize == Some(regs[|regs| - 1].1) && markName == regs[|regs| - 1].0) &&
    (!demise ==> FirstMismatch(regs) == |regs|)
  }

  lemma ScanStart(ns: seq<string>, store: map<string, Value>, demise: bool)
    ensures ScanState(ns, store, 0, demise, None, "")
  {
    assert ns[..0] == [];
  }

  /** An unbound name is skipped. */
  lemma ScanUnbound(ns: seq<string>, store: map<string, Value>, j: nat, demise: bool,
                    markSize: Option<int>, markName: string)
    requires j < |ns| && ns[j] !in store
    requires ScanState(ns, store, j, demise, markSize, markName)
    ensures ScanState(ns, store, j + 1, demise, markSize, markName)
  {
    RegisteredStep(ns, store, j);
  }

  /** A bound name that agrees with the mark (or any, when the index is
      fixed) becomes the mark. */
  lemma ScanBound(ns: seq<string>, store: map<string, Value>, j: nat, demise: bool,
                  markSize: Option<int>, markName: string)
    requires j < |ns| && ns[j] in store
    requires ScanState(ns, store, j, demise, markSize, markName)
    requires !demise && markSize.Some? ==> markSize.value == ConfigOf(store[ns[j]]).size
    ensures ScanState(ns, store, j + 1, demise, Some(ConfigOf(store[ns[j]]).size), ns[j])
  {
    RegisteredStep(ns, store, j);
    if !demise {
      FirstMismatchStep(Registered(ns[..j], store), (ns[j], ConfigOf(store[ns[j]]).size));
    }
  }

  /** A bound name that disagrees with the mark is the mismatch reported. */
  lemma ScanMismatch(f: string, names: seq<string>, store: map<string, Value>, j: nat,
                     markSize: Option<int>, markName: string, paramTotalSize: Option<int>)
    requires |names| >= 2 && j < |names| - 1 && names[1..][j] in store
    requires ScanState(names[1..], store, j, false, markSize, markName)
    requires markSize.Some? && markSize.value != ConfigOf(store[names[1..][j]]).size
    ensures ParamChecked(f, names, store, false, paramTotalSize) ==
      Err(ParamLengthMismatch(f, markName, names[1..][j], markSize.value, ConfigOf(store[names[1..][j]]).size))
  {
    var ns := names[1..];
    var k := MismatchAt(ns, store, j, markSize, markName);
    MismatchChecked(f, names, store, paramTotalSize, k);
  }

  /** Where the scan meets a disagreeing bound name, that name and the mark
      are the first mismatching pair of the registered names. */
  lemma MismatchAt(ns: seq<string>, store: map<string, Value>, j: nat, markSize: Option<int>, markName: string)
    returns (k: nat)
    requires j < |ns| && ns[j] in store
    requires ScanState(ns, store, j, false, markSize, markName)
    requires markSize.Some? && markSize.value != ConfigOf(store[ns[j]]).size
    ensures var all := Registered(ns, store);
      0 < k < |all| && FirstMismatch(all) == k &&
      all[k - 1] == (markName, markSize.value) && all[k] == (ns[j], ConfigOf(store[ns[j]]).size)
  {
    var regs := Registered(ns[..j], store);
    var x := (ns[j], ConfigOf(store[ns[j]]).size);
    RegisteredStep(ns, store, j);
    assert Registered(ns[..j + 1], store) == regs + [x];
    FirstMismatchStep(regs, x);
    assert FirstMismatch(regs + [x]) == |regs|;
    MismatchReported(ns, store, j + 1);
    k := |regs|;
    assert (regs + [x])[k - 1] == regs[k - 1] && (regs + [x])[k] == x;
  }

  /** paramCheck reports the first mismatching pair of registered names. */
  lemma MismatchChecked(f: string, names: seq<string>, store: map<string, Value>, paramTotalSize: Option<int>, k: nat)
    requires |names| >= 2
    requires var all := Registered(names[1..], store); 0 < k < |all| && FirstMismatch(all) == k
    ensures var all := Registered(names[1..], store);
      ParamChecked(f, names, store, false, paramTotalSize) ==
        Err(ParamLengthMismatch(f, all[k - 1].0, all[k].0, all[k - 1].1, all[k].1))
  {
  }

  /** After the last name: the formula's size is the mark's, or the
      configured total, or -1. */
  lemma ScanDone(f: string, names: seq<string>, store: map<string, Value>, demise: bool,
                 markSize: Option<int>, markName: string, paramTotalSize: Option<int>)
    requires |names| >= 2
    requires ScanState(names[1..], store, |names| - 1, demise, markSize, markName)
    ensures ParamChecked(f, names, store, demise, paramTotalSize) ==
      Ok(Message(f, names, if markSize.Some? then markSize.value else if paramTotalSize.Some? then paramTotalSize.value else -1,
                 Contains(f, "null")))
  {
    assert names[1..][..|names| - 1] == names[1..];
  }

  /** checkParamSize's loop after the entries before i: the last sized
      message is the mark, and none has failed its check. */
  predicate SizeState(checklist: seq<Option<Message>>, i: nat, currentIndex: Option<nat>, mark: Option<Message>)
    requires i <= |checklist|
  {
    var s := Sized(checklist[..i]);
    (mark.None? <==> |s| == 0) && (|s| > 0 ==> mark == Some(s[|s| - 1])) &&
    FirstFault(s, currentIndex) == |s|
  }

  lemma SizeStart(checklist: seq<Option<Message>>, currentIndex: Option<nat>)
    ensures SizeState(checklist, 0, currentIndex, None)
  {
    assert checklist[..0] == [];
  }

  /** An absent message, or one of unknown size, is skipped. */
  lemma SizeSkip(checklist: seq<Option<Message>>, i: nat, currentIndex: Option<nat>, mark: Option<Message>)
    requires i < |checklist| && (checklist[i].None? || checklist[i].value.size == -1)
    requires SizeState(checklist, i, currentIndex, mark)
    ensures SizeState(checklist, i + 1, currentIndex, mark)
  {
    SizedStep(checklist, i);
    assert Sized(checklist[..i + 1]) == Sized(checklist[..i]);
  }

  /** The check of a sized message against the mark (itself, for the first). */
  predicate Passes(mark: Message, m: Message, currentIndex: Option<nat>)
  {
    match currentIndex
    case Some(ci) => !(mark.size <= ci && !m.nullJudge)
    case None => mark.size == m.size
  }

  /** A sized message that passes its check becomes the mark. */
  lemma SizePass(checklist: seq<Option<Message>>, i: nat, currentIndex: Option<nat>, mark: Option<Message>)
    requires i < |checklist| && checklist[i].Some? && checklist[i].value.size != -1
    requires SizeState(checklist, i, currentIndex, mark)
    requires Passes(if mark.Some? then mark.value else checklist[i].value, checklist[i].value, currentIndex)
    ensures SizeState(checklist, i + 1, currentIndex, checklist[i])
  {
    SizedStep(checklist, i);
    var s := Sized(checklist[..i]);
    var m := checklist[i].value;
    FirstFaultStep(s, m, currentIndex);
    assert (s + [m])[Mark(|s|)] == if mark.Some? then mark.value else m;
  }

  /** A sized message that fails its check is the failure reported. */
  lemma SizeFail(checklist: seq<Option<Message>>, i: nat, currentIndex: Option<nat>, mark: Option<Message>,
                 paramTotalSize: Option<int>)
    requires i < |checklist| && checklist[i].Some? && checklist[i].value.size != -1
    requires SizeState(checklist, i, currentIndex, mark)
    requires !Passes(if mark.Some? then mark.value else checklist[i].value, checklist[i].value, currentIndex)
    ensures var first := if mark.Some? then mark.value else checklist[i].value;
      var m := checklist[i].value;
      CheckedSizes(checklist, currentIndex, paramTotalSize) ==
        if currentIndex.Some? then Err(IndexBeyondLength(first.formula, currentIndex.value))
        else Err(FormulaLengthMismatch(first.formula, m.formula, first.size, m.size))
  {
    SizedStep(checklist, i);
    var s := Sized(checklist[..i]);
    var m := checklist[i].value;
    FirstFaultStep(s, m, currentIndex);
    assert (s + [m])[Mark(|s|)] == if mark.Some? then mark.value else m;
    assert (s + [m])[|s|] == m;
    FaultReported(checklist, i + 1, currentIndex);
  }

  /** After the whole list: the length is unresolvable exactly when no
      message was sized and no total is configured. */
  lemma SizeDone(checklist: seq<Option<Message>>, currentIndex: Option<nat>, mark: Option<Message>,
                 paramTotalSize: Option<int>)
    requires SizeState(checklist, |checklist|, currentIndex, mark)
    ensures CheckedSizes(checklist, currentIndex, paramTotalSize) ==
      if mark.None? && paramTotalSize.None? then Err(UnresolvableLength(PresentFormulas(checklist))) else Ok(())
  {
    assert checklist[..|checklist|] == checklist;
  }
}
