/** Persisted launch records and the names derived from a sandbox id. */
module Records {

  type Id = string

  const NAME_PREFIX := "oshl-"

  function ContainerName(id: Id): string {
    NAME_PREFIX + id
  }

  /** Distinct sandboxes have distinct VMs. */
  lemma ContainerNameInjective(a: Id, b: Id)
    requires ContainerName(a) == ContainerName(b)
    ensures a == b
  {
    assert ContainerName(a)[|NAME_PREFIX|..] == a;
    assert ContainerName(b)[|NAME_PREFIX|..] == b;
  }

  predicate IdChar(c: char) {
    'A' <= c <= 'Z' || 'a' <= c <= 'z' || '0' <= c <= '9' || c == '.' || c == '_' || c == '-'
  }

  predicate ValidId(id: Id) {
    1 <= |id| <= 128 && (forall i :: 0 <= i < |id| ==> IdChar(id[i])) && id != "." && id != ".."
  }

  /** The part of a create request the lifecycle depends on; `template` stands for
      the rest of the accepted specification. */
  datatype Request = Request(id: Id, name: string, workspace: string, image: string, token: string, template: string)

  datatype Config = Config(ns: string, defaultImage: string)

  /** The fields of a record that are fixed when the request is accepted. */
  datatype Identity = Identity(
    id: Id,
    name: string,
    ns: string,
    workspace: string,
    containerName: string,
    imageRef: string,
    createdAt: int,
    sandbox: Request)

  /** A record: its identity, the digest pinned at boot, and the gateway's stop intent. */
  datatype Record = Record(who: Identity, imageDigest: string, stopped: bool)

  /** The identity is the request's and the driver's own, and the request kept is the one sent
      but for its token. */
  predicate Answers(who: Identity, cfg: Config, req: Request) {
    && who.id == req.id && who.name == req.name && who.workspace == req.workspace && who.ns == cfg.ns
    && who.containerName == "oshl-" + req.id
    && (req.image != "" ==> who.imageRef == req.image)
    && (req.image == "" ==> who.imageRef == cfg.defaultImage)
    && who.sandbox.token == "" && who.sandbox.(token := req.token) == req
  }

  /** The record written before any boot attempt; the secret token is redacted. */
  function Accept(cfg: Config, req: Request, now: int): (rec: Record)
    ensures Answers(rec.who, cfg, req) && rec.imageDigest == "" && !rec.stopped
  {
    Record(
      Identity(req.id, req.name, cfg.ns, req.workspace, ContainerName(req.id),
               if req.image == "" then cfg.defaultImage else req.image,
               now, req.(token := "")),
      "", false)
  }
}
