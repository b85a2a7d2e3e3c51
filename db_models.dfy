/** The stored issues and comments the ingestion job reads, as plain records (nullable columns are `Option`s). */
module DbModels {
  import opened Wrappers

  datatype Issue = Issue(
    id: int,
    owner: string,
    repo: string,
    number: int,
    title: string,
    body: Option<string>,
    url: Option<string>,
    isBug: Option<bool>,
    isFeature: Option<bool>)

  datatype Comment = Comment(
    id: int,
    commentId: int,
    issueId: int,
    body: Option<string>)
}
