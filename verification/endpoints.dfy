/** The mcp.run URLs the client reads from. */
module Endpoints {

  const InstallationsPath := "/api/profiles/~/default/installations"
  const ContentPath := "/api/c/"

  /** The installation list of the default profile. */
  function Installations(base: string): string {
    base + InstallationsPath
  }

  /** The module bytes stored at a content address. */
  function Content(base: string, addr: string): string {
    base + ContentPath + addr
  }

  /** Distinct content addresses are fetched from distinct URLs. */
  lemma ContentInjective(base: string, a: string, b: string)
    requires Content(base, a) == Content(base, b)
    ensures a == b
  {
    var p := base + ContentPath;
    assert a == Content(base, a)[|p|..];
    assert b == Content(base, b)[|p|..];
  }

  /** The installation list is never mistaken for module bytes. */
  lemma InstallationsNotContent(base: string, addr: string)
    ensures Installations(base) != Content(base, addr)
  {
    assert Installations(base)[|base| + 5] == 'p';
    assert Content(base, addr)[|base| + 5] == 'c';
  }
}
