/** The collision-free renaming of the one tool name Codex reserves. */
module ToolNames {
  import opened Wrappers
  import opened Decimals

  const RESERVED := "python"
  const ALIAS := "csswitch_compat_python"

  datatype ToolNameMap = ToolNameMap(toCodex: map<string, string>, toAnthropic: map<string, string>) {
    function CodexName(name: string): string {
      if name in toCodex then toCodex[name] else name
    }

    function AnthropicName(name: string): string {
      if name in toAnthropic then toAnthropic[name] else name
    }
  }

  const NoRenaming := ToolNameMap(map[], map[])

  /** The alias tried at each attempt: the plain one first, then numbered from one. */
  function AliasAt(attempt: nat): string {
    if attempt == 0 then ALIAS else ALIAS + "_" + Decimal(attempt)
  }

  lemma AliasesDiffer(a: nat, b: nat)
    requires AliasAt(a) == AliasAt(b)
    ensures a == b
  {
    if a != 0 && b != 0 {
      var n := |ALIAS + "_"|;
      assert AliasAt(a)[n..] == Decimal(a) && AliasAt(b)[n..] == Decimal(b);
      DecimalInjective(a, b);
    }
  }

  /** The renaming for a request using `names`: nothing, or the first alias no name collides with. */
  ghost predicate Built(m: ToolNameMap, names: set<string>) {
    if RESERVED !in names then m == NoRenaming
    else
      exists k: nat ::
        && k <= |names|
        && AliasAt(k) !in names
        && (forall j: nat :: j < k ==> AliasAt(j) in names)
        && m == ToolNameMap(map[RESERVED := AliasAt(k)], map[AliasAt(k) := RESERVED])
  }

  /** The search stops within as many attempts as there are names, by the pigeonhole principle. */
  method FromRequest(names: set<string>) returns (m: ToolNameMap)
    ensures Built(m, names)
  {
    m := NoRenaming;
    if RESERVED in names {
      var alias := ALIAS;
      var suffix := 1;
      ghost var tried: set<string> := {};
      while alias in names
        invariant suffix >= 1 && alias == AliasAt(suffix - 1)
        invariant forall j: nat :: j < suffix - 1 ==> AliasAt(j) in names
        invariant forall a :: a in tried ==> exists j: nat :: j < suffix - 1 && a == AliasAt(j)
        invariant tried <= names && |tried| == suffix - 1
        invariant suffix - 1 <= |names|
        decreases |names| - |tried|
      {
        assert alias !in tried by {
          if alias in tried {
            var j: nat :| j < suffix - 1 && alias == AliasAt(j);
            AliasesDiffer(j, suffix - 1);
          }
        }
        tried := tried + {alias};
        SubsetSize(tried, names);
        alias := ALIAS + "_" + Decimal(suffix);
        suffix := suffix + 1;
      }
      SubsetSize(tried, names);
      m := ToolNameMap(map[RESERVED := alias], map[alias := RESERVED]);
    }
  }

  lemma {:induction false} SubsetSize<T>(a: set<T>, b: set<T>)
    requires a <= b
    ensures |a| <= |b|
  {
    assert b == a + (b - a);
    assert |b| == |a| + |b - a|;
  }

  /** Distinct names stay distinct, and mapping back undoes the renaming. */
  lemma RenamingIsInjective(m: ToolNameMap, names: set<string>, a: string, b: string)
    requires Built(m, names) && a in names && b in names
    ensures m.AnthropicName(m.CodexName(a)) == a
    ensures m.CodexName(a) == m.CodexName(b) ==> a == b
  {
    if RESERVED in names {
      var k: nat :| k <= |names| && AliasAt(k) !in names
                    && m == ToolNameMap(map[RESERVED := AliasAt(k)], map[AliasAt(k) := RESERVED]);
    }
  }

  /** A name coming from upstream survives the trip out and back unless it is the reserved name itself. */
  lemma UpstreamNameSurvives(m: ToolNameMap, names: set<string>, upstream: string)
    requires Built(m, names)
    ensures m.CodexName(m.AnthropicName(upstream)) == upstream <==> !(RESERVED in names && upstream == RESERVED)
  {
    if RESERVED in names {
      var k: nat :| k <= |names| && AliasAt(k) !in names
                    && m == ToolNameMap(map[RESERVED := AliasAt(k)], map[AliasAt(k) := RESERVED]);
      assert AliasAt(k)[0] == 'c';
    }
  }
}
