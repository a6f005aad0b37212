/** The bootstrap rules of membership-discount-manager.php: the class
    autoloader, which maps a namespaced class name to a file under
    `includes/`, and the two dependency tests over the active-plugins list. */
module MdmPlugin {
  import opened Php

  /** The namespace prefix the autoloader serves, with its trailing
      backslash. */
  const Prefix: string := "MembershipDiscountManager\\"

  /** `strncmp($prefix, $class, strlen($prefix)) === 0`: the class name
      begins with the prefix (a shorter name differs at its end). */
  predicate HasPrefix(cls: string) {
    |Prefix| <= |cls| && cls[..|Prefix|] == Prefix
  }

  /** `str_replace('\\', '/', $s)`: every backslash becomes a slash, every
      other character stays where it is. */
  function SlashPath(s: string): (r: string)
    ensures |r| == |s|
    ensures forall i :: 0 <= i < |s| ==> r[i] == if s[i] == '\\' then '/' else s[i]
    decreases |s|
  {
    if s == [] then []
    else [if s[0] == '\\' then '/' else s[0]] + SlashPath(s[1..])
  }

  /** The reverse replacement, slashes back to backslashes. */
  function BackslashPath(s: string): (r: string)
    ensures |r| == |s|
    ensures forall i :: 0 <= i < |s| ==> r[i] == if s[i] == '/' then '\\' else s[i]
    decreases |s|
  {
    if s == [] then []
    else [if s[0] == '/' then '\\' else s[0]] + BackslashPath(s[1..])
  }

  /** A PHP class name holds no slash, so the replacement loses nothing:
      undoing it gives the name back, and no backslash is left. */
  lemma SlashPathRoundTrip(s: string)
    requires '/' !in s
    ensures BackslashPath(SlashPath(s)) == s
    ensures '\\' !in SlashPath(s)
  {
    var r := SlashPath(s);
    assert forall i :: 0 <= i < |s| ==> s[i] != '/';
    assert forall i :: 0 <= i < |r| ==> r[i] != '\\';
  }

  /** The file the autoloader maps a class to, below `MDM_PLUGIN_DIR .
      'includes/'`, or None for a class outside the namespace. */
  function ClassFile(pluginDir: string, cls: string): Option<string> {
    if !HasPrefix(cls) then None
    else Some(pluginDir + "includes/" + SlashPath(cls[|Prefix|..]) + ".php")
  }

  /** `MembershipDiscountManager\\Admin` maps to `includes/Admin.php`. The
      bootstrap requires `class-mdm-admin.php`, which declares that same
      name, before any `new Admin()`, so the autoloader is never asked for
      it and that file is never loaded. */
  lemma AdminClassFile(pluginDir: string)
    ensures ClassFile(pluginDir, Prefix + "Admin") == Some(pluginDir + "includes/Admin.php")
  {
    var cls := Prefix + "Admin";
    assert cls[..|Prefix|] == Prefix;
    assert cls[|Prefix|..] == "Admin";
    assert SlashPath("Admin") == "Admin";
    assert "includes/" + "Admin" + ".php" == "includes/Admin.php";
    assert pluginDir + "includes/" + "Admin" + ".php" == pluginDir + ("includes/" + "Admin" + ".php");
  }

  /** The autoloader callback: the file it requires, if any. It requires
      the mapped file only when the file exists. */
  function Autoload(pluginDir: string, cls: string, existing: set<string>): (r: Option<string>)
    ensures r.Some? ==> HasPrefix(cls) && r.value in existing
    ensures !HasPrefix(cls) ==> r.None?
    ensures HasPrefix(cls) && ClassFile(pluginDir, cls).value in existing ==> r == ClassFile(pluginDir, cls)
  {
    match ClassFile(pluginDir, cls)
    case Some(file) => if file in existing then Some(file) else None
    case None => None
  }

  /** The shape of a mapped path: the includes directory, the name after
      the prefix with its namespace separators turned into directory
      separators, and `.php`. */
  lemma ClassFileShape(pluginDir: string, cls: string)
    requires HasPrefix(cls) && '/' !in cls
    ensures var file := ClassFile(pluginDir, cls).value; var base := pluginDir + "includes/";
      var rel := file[|base|..|file| - 4];
      && |file| == |base| + |cls| - |Prefix| + 4
      && file[..|base|] == base && file[|file| - 4..] == ".php"
      && '\\' !in rel && BackslashPath(rel) == cls[|Prefix|..]
  {
    var base := pluginDir + "includes/";
    var rel := cls[|Prefix|..];
    assert '/' !in rel by {
      assert forall i :: 0 <= i < |rel| ==> rel[i] == cls[|Prefix| + i];
    }
    SlashPathRoundTrip(rel);
    var file := base + SlashPath(rel) + ".php";
    assert file[|base|..|file| - 4] == SlashPath(rel);
  }

  /** Two different classes of the namespace never map to the same file. */
  lemma ClassFileInjective(pluginDir: string, a: string, b: string)
    requires HasPrefix(a) && HasPrefix(b) && '/' !in a && '/' !in b
    requires ClassFile(pluginDir, a) == ClassFile(pluginDir, b)
    ensures a == b
  {
    ClassFileShape(pluginDir, a);
    ClassFileShape(pluginDir, b);
    assert a == a[..|Prefix|] + a[|Prefix|..];
    assert b == b[..|Prefix|] + b[|Prefix|..];
  }

  const WooCommercePlugin := "woocommerce/woocommerce.php"
  const MembershipsPlugin := "woocommerce-memberships/woocommerce-memberships.php"

  /** mdm_is_woocommerce_active. */
  function IsWooCommerceActive(activePlugins: seq<string>): (r: bool)
    ensures r <==> exists i :: 0 <= i < |activePlugins| && activePlugins[i] == WooCommercePlugin
  {
    WooCommercePlugin in activePlugins
  }

  /** mdm_is_wc_memberships_active. */
  function IsMembershipsActive(activePlugins: seq<string>): (r: bool)
    ensures r <==> exists i :: 0 <= i < |activePlugins| && activePlugins[i] == MembershipsPlugin
  {
    MembershipsPlugin in activePlugins
  }

  /** The two tests look for different plugin files: activating one of the
      two plugins never satisfies the other test. */
  lemma DependencyTestsIndependent(activePlugins: seq<string>)
    ensures IsWooCommerceActive(activePlugins + [MembershipsPlugin]) == IsWooCommerceActive(activePlugins)
    ensures IsMembershipsActive(activePlugins + [WooCommercePlugin]) == IsMembershipsActive(activePlugins)
  {
    assert |WooCommercePlugin| != |MembershipsPlugin|;
  }
}
