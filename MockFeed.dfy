/** `MockFreshRSSClient`: the fixed categories and articles the program
    reads when the mock is switched on. */
module MockFeed {
  import opened Articles

  const Categories: seq<string> := ["user/-/label/Tech", "user/-/label/News"]

  const MockArticles: seq<Article> := [
    Article("mock-1", "Kubernetes 1.30 がリリース - 新機能まとめ", "https://example.com/k8s-1.30", "Tech News"),
    Article("mock-2", "GitHub Actions で CI/CD パイプラインを構築する", "https://example.com/github-actions-cicd", "Tech News"),
    Article("mock-3", "今日の晩ごはんレシピ 10 選", "https://example.com/dinner-recipes", "Cooking Daily"),
    Article("mock-4", "Terraform 1.8 の新機能と移行ガイド", "https://example.com/terraform-1.8", "Tech News"),
    Article("mock-5", "AWS Lambda のコールドスタートを最小化する方法", "https://example.com/lambda-cold-start", "AWS"),
    Article("mock-6", "AWS EC2 の新しいインスタンスタイプ発表", "https://example.com/aws-ec2-new-instance-types", "AWS"),
    Article("mock-7", "OpenTelemetry で分散トレーシングを実装する", "https://example.com/opentelemetry-tracing", "Tech News"),
    Article("mock-8", "DevSecOps のベストプラクティス 2025", "https://example.com/devsecops-2025", "Tech News")]
}
