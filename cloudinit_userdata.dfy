/**
 * The cloud-init user-data document of the newest client
 * (pkg/cloud/libvirt/client/cloudinit.go): its template, how the user's
 * script is embedded, and what a guest reads back from it.
 */
module CloudInitUserData {
  import opened Wrappers
  import opened Strs
  import Base64

  // Each line of the template starts a source line below (the key spans
  // several).  The literals are cut into eight-character pieces because one
  // long literal makes every proof that looks at the finished document much
  // slower for the verifier.

  /** The template up to the user's script, which is written inside single quotes. */
  function CloudInitHead(): string {
    "\n" +
    "#cloud-c" + "onfig\n" +
    "\n" +
    "# Hostna" + "me manag" + "ement\n" +
    "preserve" + "_hostnam" + "e: False" + "\n" +
    "hostname" + ": whatev" + "er\n" +
    "fqdn: wh" + "atever.e" + "xample.l" + "ocal\n" +
    "\n" +
    "runcmd:\n" +
    "  # Set " + "the host" + "name to " + "its IP a" + "ddress s" + "o every " + "kubernet" + "es node " + "has uniq" + "ue name\n" +
    "  - host" + "namectl " + "set-host" + "name $(i" + "p route " + "get 1 | " + "cut -d\' " + "\' -f7)\n" +
    "  # Run " + "the user" + " data sc" + "ript\n" +
    "  - echo" + " \'"
  }

  /** The run commands after the closing quote, and the output setting. */
  function RunCommands(): string {
    " | base6" + "4 -d | b" + "ash\n" +
    "  # Remo" + "ve cloud" + "-init wh" + "en finis" + "hed with" + " it\n" +
    "  - [ yu" + "m, -y, r" + "emove, c" + "loud-ini" + "t ]\n" +
    "\n" +
    "# Config" + "ure wher" + "e output" + " will go" + "\n" +
    "output:\n" +
    "  all: \"" + ">> /var/" + "log/clou" + "d-init.l" + "og\""
  }

  /** The SSH settings written before the key. */
  function SshSettings(): string {
    "\n" +
    "# config" + "ure inte" + "raction " + "with ssh" + " server\n" +
    "ssh_svcn" + "ame: ssh" + "\n" +
    "ssh_dele" + "tekeys: " + "True\n" +
    "ssh_genk" + "eytypes:" + " [\'rsa\'," + " \'ecdsa\'" + "]\n" +
    "\n" +
    "# Instal" + "l public" + " ssh key" + " to the " + "first us" + "er-defin" + "ed user " + "configur" + "ed\n" +
    "# in clo" + "ud.cfg i" + "n the te" + "mplate (" + "which is" + " fedpra " + "for Fedo" + "ra cloud" + " images)" + "\n" +
    "ssh_auth" + "orized_k" + "eys:\n"
  }

  /** The public key installed for the guest's first user. */
  function GuestPublicKey(): string {
    "AAAAB3Nz" + "aC1yc2EA" + "AAADAQAB" + "AAACAQCk" + "vgGhhYwE" + "jWjD+ACW" + "8s+DIanH" + "qYJIC7Rb" +
    "gBRrvAqJ" + "QuWE87jf" + "TtREHuW+" + "o0qU1eIP" + "PJzebu58" + "VPgy3Ssc" + "nrN2fKuM" + "T2PAkevm" +
    "jj4ARQmd" + "sR/BBrmz" + "dibe/Wnd" + "8WEMNX82" + "L+YrkuHo" + "VkgafFkr" + "eSZgf/j8" + "glGNl7IQ" +
    "e5gi2XDG" + "1e+BQ+e9" + "4dxAExeR" + "lldhQsbF" + "vQJ+qLmD" + "hHE4zdf/" + "d/CqY6Pw" + "oIHlrOVL" +
    "ux7/pBV5" + "SGg5eKlG" + "CPi80oEf" + "23LbwHYj" + "kUXzEreB" + "qUrWSwsd" + "p6jIQ9zz" + "ADRQJ0+C" +
    "47K6uwxy" + "1RIe3q6t" + "7f1eJwjm" + "OaYYS2Sc" + "+U1cpPHr" + "WY3OzZJk" + "bIZ3Fva8" + "qVdbqhMW" +
    "2ASqJ7oG" + "pdwiRp7F" + "TvoKlEkt" + "cc6JUK19" + "sZ6dft79" + "PF9nRy8n" + "fz4obKow" + "CZn7aqVB" +
    "OW41Dhao" + "C5oB9pfB" + "gSPnObGn" + "pkXITWrx" + "/oUQ1zwr" + "PIH150X3" + "XuDdYXfr" + "mDk/k+cQ" +
    "S7hjG328" + "pfJs8oBh" + "qUmyikUx" + "jnXvDX/L" + "QzacwDF3" + "XKCy6Xq9" + "8bemFp8l" + "nAG7c3tW" +
    "8tYpn3No" + "n6M3XaS2" + "W/ece9JR" + "ZKOOCaqC" + "52U7sg6n" + "L/Yv11Sg" + "9WSfJtIN" + "zNN1cKxZ" +
    "sIaPvorP" + "flwqNlLW" + "H3dPCb4K" + "Qry/54HC" + "BvsKm1+s" + "/yud31zk" + "9C/CI5bF" + "V959bLq+" +
    "6ra6hAMB" + "Tw=="
  }

  /** The template's text around the places where it is filled in. */
  datatype Template = Template(head: string, commands: string, settings: string, key: string)

  /** The template of the user-data document. */
  function CloudInitTemplate(): Template {
    Template(CloudInitHead(), RunCommands(), SshSettings(), GuestPublicKey())
  }

  /** The SSH section made of its settings and the key, written only when SSH access is asked for. */
  function SshSection(tpl: Template): string {
    tpl.settings + "  - ssh-rsa " + tpl.key + " Libvirt guest key\n"
  }

  /**
   * The template filled in: the head, the encoded script and its closing
   * quote, the run commands, the optional SSH section and the final newline.
   */
  function Fill(tpl: Template, script: seq<byte>, sshAccess: bool): string {
    tpl.head + Base64.Encode(script) + "'" + tpl.commands + "\n\n" + (if sshAccess then SshSection(tpl) else "") + "\n"
  }

  /**
   * `renderCloudInitStr(script, sshAccess)`: the template with the script
   * encoded in standard base64 (so the guest shell does not interpret it)
   * and, when `sshAccess` holds, the SSH section.
   */
  function RenderCloudInitStr(script: seq<byte>, sshAccess: bool): string {
    Fill(CloudInitTemplate(), script, sshAccess)
  }

  /** The base64-decoded text after `head` up to the next single quote. */
  function ScriptAfter(head: string, t: string): Option<seq<byte>> {
    if !HasPrefix(t, head) then None
    else
      var rest := t[|head|..];
      match Index(rest, "'")
      case None => None
      case Some(i) => Base64.Decode(rest[..i])
  }

  /**
   * The script a guest reads back from a user-data document: the text after
   * the template head up to the next single quote, base64-decoded (what
   * `echo '…' | base64 -d` does).
   */
  function EmbeddedScript(t: string): Option<seq<byte>> {
    ScriptAfter(CloudInitTemplate().head, t)
  }

  predicate EndsWith(t: string, suffix: string) {
    |suffix| <= |t| && t[|t| - |suffix|..] == suffix
  }

  /** The document ends with the SSH section (and the template's final newline). */
  predicate GrantsSsh(t: string) {
    EndsWith(t, SshSection(CloudInitTemplate()) + "\n")
  }

  /** A text without single quotes, followed by one: the first quote is the one after the text. */
  lemma FirstQuote(enc: string, tail: string)
    requires '\'' !in enc && |tail| > 0 && tail[0] == '\''
    ensures Index(enc + tail, "'") == Some(|enc|) && (enc + tail)[..|enc|] == enc
  {
    var s := enc + tail;
    assert OccursAt(s, "'", |enc|) by { assert s[|enc|..|enc| + 1] == [tail[0]]; }
    forall j: nat | j < |enc| ensures !OccursAt(s, "'", j) {
      assert s[j..j + 1] == [enc[j]];
    }
  }

  /** Base64 text has no single quote, so the shell's quoting cannot end inside it. */
  lemma NoQuoteInEncoding(script: seq<byte>)
    ensures '\'' !in Base64.Encode(script)
  {
    Base64.EncodeAlphabet(script);
    var enc := Base64.Encode(script);
    forall i | 0 <= i < |enc| ensures enc[i] != '\'' {
      assert Base64.IsBase64Char(enc[i]) || enc[i] == '=';
    }
  }

  /** After `head`, the text up to the first single quote is `enc` when `enc` has none and a quote follows it. */
  lemma ScriptAfterQuoted(head: string, enc: string, tail: string)
    requires '\'' !in enc && |tail| > 0 && tail[0] == '\''
    ensures ScriptAfter(head, head + (enc + tail)) == Base64.Decode(enc)
  {
    var t := head + (enc + tail);
    assert HasPrefix(t, head) && t[|head|..] == enc + tail;
    FirstQuote(enc, tail);
  }

  /** The filled-in template as the head, the encoded script and the rest. */
  lemma FillAround(head: string, enc: string, tail: string, t: string)
    requires t == head + enc + tail
    ensures t == head + (enc + tail)
  {
  }

  /** Whatever the template's text, the script read back after its head is the one filled in. */
  lemma FillScript(tpl: Template, script: seq<byte>, sshAccess: bool)
    ensures ScriptAfter(tpl.head, Fill(tpl, script, sshAccess)) == Some(script)
  {
    var enc := Base64.Encode(script);
    var tail := "'" + tpl.commands + "\n\n" + (if sshAccess then SshSection(tpl) else "") + "\n";
    FillAround(tpl.head, enc, tail, Fill(tpl, script, sshAccess));
    NoQuoteInEncoding(script);
    ScriptAfterQuoted(tpl.head, enc, tail);
    Base64.DecodeEncode(script);
  }

  /**
   * Whatever the template's text, the document ends with the SSH section
   * exactly when it was asked for: without it the document ends in the
   * blank line after the run commands, where the section ends in its key's
   * comment.
   */
  lemma FillSsh(tpl: Template, script: seq<byte>, sshAccess: bool)
    ensures sshAccess <==> EndsWith(Fill(tpl, script, sshAccess), SshSection(tpl) + "\n")
  {
    var t := Fill(tpl, script, sshAccess);
    var p := tpl.head + Base64.Encode(script) + "'" + tpl.commands + "\n\n";
    var s := SshSection(tpl) + "\n";
    assert s == (tpl.settings + "  - ssh-rsa " + tpl.key + " Libvirt guest ke") + "y\n\n";
    if sshAccess {
      assert t == p + s;
    } else {
      assert t == p + "\n";
      assert s[|s| - 3] == 'y';
      assert t[|t| - 3] == p[|p| - 2] == '\n';
      assert |s| <= |t| ==> t[|t| - |s|..][|s| - 3] == t[|t| - 3];
    }
  }

  /** The guest runs exactly the script it was given, whether or not SSH access is on. */
  lemma RenderedScript(script: seq<byte>, sshAccess: bool)
    ensures EmbeddedScript(RenderCloudInitStr(script, sshAccess)) == Some(script)
  {
    FillScript(CloudInitTemplate(), script, sshAccess);
  }

  /** Asked for, the SSH section ends the document. */
  lemma RenderedSshGranted(script: seq<byte>)
    ensures GrantsSsh(RenderCloudInitStr(script, true))
  {
    FillSsh(CloudInitTemplate(), script, true);
  }

  /** Not asked for, the document does not end with the SSH section. */
  lemma RenderedSshWithheld(script: seq<byte>)
    ensures !GrantsSsh(RenderCloudInitStr(script, false))
  {
    FillSsh(CloudInitTemplate(), script, false);
  }
}
