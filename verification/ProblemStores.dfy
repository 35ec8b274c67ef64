/** model/problems.go: the metadata of the problems that a node knows. */
module ProblemStores {
  import opened Placement
  import opened Protocol

  class ProblemStore {
    var problems: map<string, Problem>

    constructor ()
      ensures problems == map[]
    {
      problems := map[];
    }

    method NewProblem(p: Problem)
      modifies this
      ensures problems == old(problems)[p.id := p]
    {
      problems := problems[p.id := p];
    }

    /** Only a known problem can get an image. */
    method RegisterImage(id: string, fname: string) returns (ok: bool)
      modifies this
      ensures ok <==> id in old(problems)
      ensures problems == if ok then old(problems)[id := old(problems)[id].(imagePath := fname)] else old(problems)
    {
      ok := id in problems;
      if ok {
        problems := problems[id := problems[id].(imagePath := fname)];
      }
    }

    function GetMetadata(id: string): Option<Problem>
      reads this
    {
      if id in problems then Some(problems[id]) else None
    }

    /** A problem without an image counts as absent. */
    function GetFileName(id: string): Option<string>
      reads this
    {
      if id in problems && problems[id].imagePath != "" then Some(problems[id].imagePath) else None
    }
  }
}
