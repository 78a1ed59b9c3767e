/** Records shared by every part of the job assistant: one job posting (one row of
    the jobs table) and the failure-carrying wrappers used where the service can
    return an error instead of a value. */
module Jobs {

  datatype Option<+T> = None | Some(value: T)

  datatype Result<+T, +E> = Ok(value: T) | Err(error: E)

  /** One row of the jobs table; the row's position in the table is its identity. */
  datatype Posting = Posting(
    businessTitle: string,
    agency: string,
    workLocation: string,
    jobCategory: string,
    salaryRangeFrom: int,
    salaryRangeTo: int,
    salaryFrequency: string,
    jobDescription: string)

  /** The `business_title` column, in row order. */
  function Titles(rows: seq<Posting>): (col: seq<string>)
    ensures |col| == |rows|
    ensures forall i :: 0 <= i < |rows| ==> col[i] == rows[i].businessTitle
  {
    seq(|rows|, i requires 0 <= i < |rows| => rows[i].businessTitle)
  }

  /** The `job_category` column, in row order. */
  function Categories(rows: seq<Posting>): (col: seq<string>)
    ensures |col| == |rows|
    ensures forall i :: 0 <= i < |rows| ==> col[i] == rows[i].jobCategory
  {
    seq(|rows|, i requires 0 <= i < |rows| => rows[i].jobCategory)
  }

  /** The `job_description` column, in row order. */
  function Descriptions(rows: seq<Posting>): (col: seq<string>)
    ensures |col| == |rows|
    ensures forall i :: 0 <= i < |rows| ==> col[i] == rows[i].jobDescription
  {
    seq(|rows|, i requires 0 <= i < |rows| => rows[i].jobDescription)
  }
}
